/** The session event stream: `events.subscribe` with paged replay, live pushes
    buffered meanwhile, the two-index merge, and the event-id fence. */
module EventReplay {
  import opened CodeUnits

  datatype Event = Event(id: nat, payload: int)

  // ---------- The client ----------

  datatype Subscription =
    | Idle
    | Replaying(cursor: Option<nat>, replayed: seq<Event>, buffer: seq<Event>)
    | Live

  /** `highWater` is the session's entry in `lastEventIds` (absent while not `known`);
      `handled` lists the events that passed the fence. */
  datatype Client = Client(known: bool, highWater: nat, handled: seq<Event>, subscription: Subscription)

  /** The event-id fence of `handleSessionEvent`. */
  function Handle(client: Client, event: Event): Client {
    if event.id <= client.highWater then client
    else client.(known := true, highWater := event.id, handled := client.handled + [event])
  }

  function HandleAll(client: Client, events: seq<Event>): Client
    decreases |events|
  {
    if events == [] then client else HandleAll(Handle(client, events[0]), events[1..])
  }

  /** The order in which `applyReplayedAndBufferedEvents` applies both lists. */
  function Merge(replayed: seq<Event>, buffered: seq<Event>): seq<Event>
    decreases |replayed| + |buffered|
  {
    if replayed == [] then buffered
    else if buffered == [] || replayed[0].id <= buffered[0].id then
      [replayed[0]] + Merge(replayed[1..], buffered)
    else [buffered[0]] + Merge(replayed, buffered[1..])
  }

  /** A pushed event: kept aside during replay, handled at once otherwise. */
  function OnPush(client: Client, event: Event): Client {
    match client.subscription
    case Replaying(cursor, replayed, buffer) =>
      client.(subscription := Replaying(cursor, replayed, buffer + [event]))
    case _ => Handle(client, event)
  }

  /** A reply to `events.subscribe`; the last one ends the replay. */
  function OnPage(client: Client, page: seq<Event>, hasMore: bool, next: Option<nat>): Client {
    match client.subscription
    case Replaying(_, replayed, buffer) =>
      if hasMore then client.(subscription := Replaying(next, replayed + page, buffer))
      else HandleAll(client.(subscription := Live), Merge(replayed + page, buffer))
    case _ => client
  }

  /** A snapshot's event id never lowers the fence. */
  function OnSnapshot(client: Client, eventId: nat): Client {
    client.(known := true, highWater := Max(client.highWater, eventId))
  }

  /** A history switch writes its event id into the fence, whatever stood there. */
  function OnSwitch(client: Client, eventId: nat): Client { client.(known := true, highWater := eventId) }

  function OnSubscribe(client: Client): Client {
    client.(subscription := Replaying(if client.known then Some(client.highWater) else None, [], []))
  }

  function Max(a: nat, b: nat): nat { if a < b then b else a }

  /** The refs the effect and the event listener share, for one session. */
  class SessionEvents {
    var known: bool
    var lastEventId: nat
    var handled: seq<Event>
    var subscription: Subscription

    constructor ()
      ensures State() == Client(false, 0, [], Idle)
    {
      known, lastEventId, handled, subscription := false, 0, [], Idle;
    }

    ghost function State(): Client
      reads this
    {
      Client(known, lastEventId, handled, subscription)
    }

    method HandleSessionEvent(event: Event)
      modifies this
      ensures State() == Handle(old(State()), event)
    {
      if event.id <= lastEventId { return; }
      known, lastEventId := true, event.id;
      handled := handled + [event];
    }

    method ApplyReplayedAndBufferedEvents(replayed: seq<Event>, buffered: seq<Event>)
      modifies this
      ensures State() == HandleAll(old(State()), Merge(replayed, buffered))
    {
      var replayIndex, bufferedIndex := 0, 0;
      while replayIndex < |replayed| || bufferedIndex < |buffered|
        invariant replayIndex <= |replayed| && bufferedIndex <= |buffered|
        invariant HandleAll(State(), Merge(replayed[replayIndex..], buffered[bufferedIndex..])) ==
                  HandleAll(old(State()), Merge(replayed, buffered))
        decreases |replayed| - replayIndex + |buffered| - bufferedIndex
      {
        ghost var r, b := replayed[replayIndex..], buffered[bufferedIndex..];
        if bufferedIndex == |buffered| ||
           (replayIndex < |replayed| && replayed[replayIndex].id <= buffered[bufferedIndex].id) {
          assert Merge(r, b)[1..] == Merge(r[1..], b);
          HandleSessionEvent(replayed[replayIndex]);
          replayIndex := replayIndex + 1;
        } else {
          assert Merge(r, b)[1..] == Merge(r, b[1..]);
          HandleSessionEvent(buffered[bufferedIndex]);
          bufferedIndex := bufferedIndex + 1;
        }
      }
    }

    method Push(event: Event)
      modifies this
      ensures State() == OnPush(old(State()), event)
    {
      match subscription
      case Replaying(cursor, replayed, buffer) =>
        subscription := Replaying(cursor, replayed, buffer + [event]);
      case _ => HandleSessionEvent(event);
    }

    method Page(page: seq<Event>, hasMore: bool, next: Option<nat>)
      modifies this
      ensures State() == OnPage(old(State()), page, hasMore, next)
    {
      match subscription
      case Replaying(_, replayed, buffer) =>
        if hasMore {
          subscription := Replaying(next, replayed + page, buffer);
        } else {
          subscription := Live;
          ApplyReplayedAndBufferedEvents(replayed + page, buffer);
        }
      case _ =>
    }

    method SnapshotCommitted(eventId: nat)
      modifies this
      ensures State() == OnSnapshot(old(State()), eventId)
    {
      known := true;
      if lastEventId < eventId { lastEventId := eventId; }
    }

    method Switched(eventId: nat)
      modifies this
      ensures State() == OnSwitch(old(State()), eventId)
    {
      known, lastEventId := true, eventId;
    }

    method Subscribe()
      modifies this
      ensures State() == OnSubscribe(old(State()))
    {
      subscription := Replaying(if known then Some(lastEventId) else None, [], []);
    }

    /** Deselected, disconnected, or the replay request failed. */
    method Forget()
      modifies this
      ensures State() == old(State()).(subscription := Idle)
    {
      subscription := Idle;
    }
  }

  // ---------- The world around it ----------

  /** A daemon connection: whether the session is subscribed on it, its event high-water
      mark, the position in the log of the next broadcast it will look at, and whether an
      unsubscribe request is under way. */
  datatype Connection = Connection(subscribed: bool, highWater: nat, next: nat, leaving: bool)

  /** `log` lists all events ever logged, of which the first `cleared` are no longer stored.
      `stale` holds the cursors of abandoned replay loops, which go on asking for pages.
      `skipped` records unhandled ids the client did not ask for: those a fence was moved
      over, and those logged before a subscription without a cursor. */
  datatype World = World(
    client: Client,
    connection: Option<Connection>,
    log: seq<Event>,
    cleared: nat,
    stale: seq<Option<nat>>,
    skipped: set<nat>)

  datatype Step =
    | Append(event: Event)               // the daemon logs an event
    | ClearLog                           // the idle session's stored events are deleted
    | Connect(next: nat)                 // cleared events were sent out before they were cleared
    | Disconnect                         // subscriptions and replay buffers are cleared
    | Subscribe
    | Page(limit: nat)                   // one events.subscribe request and its reply
    | StalePage(loop: nat, limit: nat)   // the same for an abandoned loop; the reply is ignored
    | Broadcast                          // the daemon looks at the next logged event
    | Raise(eventId: nat)                // a committed snapshot moves the fence up
    | SetFence(eventId: nat)             // a history switch overwrites the fence
    | Leave(tell: bool)                  // the client drops the session, with or without telling
    | Unsubscribe                        // the daemon hears of it
    | Fail                               // the replay request fails, the connection stays up

  function LastId(log: seq<Event>): nat {
    if log == [] then 0 else log[|log| - 1].id
  }

  /** The events above `cursor`. */
  function After(log: seq<Event>, cursor: nat): seq<Event> {
    if log == [] then []
    else
      var earlier := After(log[..|log| - 1], cursor);
      var last := log[|log| - 1];
      if last.id > cursor then earlier + [last] else earlier
  }

  function Ids(events: seq<Event>): set<nat> { set i | 0 <= i < |events| :: events[i].id }

  function IdsIn(log: seq<Event>, low: nat, high: nat): set<nat> {
    set i | 0 <= i < |log| && low < log[i].id <= high :: log[i].id
  }

  /** The stored events. */
  function Rows(w: World): seq<Event> { if w.cleared <= |w.log| then w.log[w.cleared..] else [] }

  /** The ids that this connection will not push any more. */
  function Passed(log: seq<Event>, connection: Connection): set<nat> {
    set i | 0 <= i < |log| && (i < connection.next || log[i].id <= connection.highWater) :: log[i].id
  }

  datatype Reply = Reply(connection: Connection, page: seq<Event>, hasMore: bool, next: Option<nat>)

  /** The daemon's `events_subscribe`. */
  function Serve(connection: Connection, rows: seq<Event>, cursor: Option<nat>, limit: nat): Reply {
    match cursor
    case None => Reply(connection.(subscribed := true, highWater := LastId(rows)), [], false, None)
    case Some(after) =>
      var rest := After(rows, after);
      var hasMore := |rest| > limit;
      var page := if hasMore then rest[..limit] else rest;
      var reached := if page == [] then after else page[|page| - 1].id;
      Reply(connection.(subscribed := true, highWater := Max(Max(connection.highWater, after), reached)),
            page, hasMore, Some(reached))
  }

  /** The world after the client may have handled events: what is handled is not skipped. */
  function WithClient(w: World, client: Client, connection: Connection, skipped: set<nat>): World {
    w.(client := client, connection := Some(connection), skipped := skipped - Ids(client.handled))
  }

  /** The skipped ids once the fence was moved over everything up to `eventId`. */
  function Covered(w: World, eventId: nat): set<nat> {
    w.skipped + IdsIn(w.log, w.client.highWater, eventId) - Ids(w.client.handled)
  }

  predicate CanPage(w: World, limit: nat) {
    w.connection.Some? && w.client.subscription.Replaying? && limit > 0 && !w.connection.value.leaving
  }

  function ServePage(w: World, limit: nat): World
    requires CanPage(w, limit)
  {
    var cursor := w.client.subscription.cursor;
    var reply := Serve(w.connection.value, Rows(w), cursor, limit);
    WithClient(w, OnPage(w.client, reply.page, reply.hasMore, reply.next), reply.connection,
               if cursor.None? then w.skipped + Passed(w.log, reply.connection) else w.skipped)
  }

  function ServeStale(w: World, loop: nat, limit: nat): World
    requires w.connection.Some? && loop < |w.stale|
  {
    var reply := Serve(w.connection.value, Rows(w), w.stale[loop], limit);
    w.(connection := Some(reply.connection),
       stale := if reply.hasMore then w.stale[loop := reply.next] else w.stale[..loop] + w.stale[loop + 1..])
  }

  function BroadcastNext(w: World): World
    requires w.connection.Some? && w.connection.value.next < |w.log|
  {
    var connection := w.connection.value;
    var event := w.log[connection.next];
    if connection.subscribed && event.id > connection.highWater then
      WithClient(w, OnPush(w.client, event), connection.(highWater := event.id, next := connection.next + 1), w.skipped)
    else w.(connection := Some(connection.(next := connection.next + 1)))
  }

  function Next(w: World, step: Step): World {
    match step
    case Append(event) => if event.id > LastId(w.log) then w.(log := w.log + [event]) else w
    case ClearLog => w.(cleared := |w.log|)
    case Connect(next) =>
      if w.connection.None? && w.cleared <= next <= |w.log| then w.(connection := Some(Connection(false, 0, next, false)))
      else w
    case Disconnect => w.(connection := None, client := w.client.(subscription := Idle), stale := [])
    case Subscribe =>
      if w.connection.Some? && w.client.subscription.Idle? then
        w.(client := OnSubscribe(w.client),
           skipped := if w.client.known then w.skipped - IdsIn(Rows(w), w.client.highWater, LastId(w.log)) else w.skipped)
      else w
    case Page(limit) => if CanPage(w, limit) then ServePage(w, limit) else w
    case StalePage(loop, limit) =>
      if w.connection.Some? && loop < |w.stale| && limit > 0 then ServeStale(w, loop, limit) else w
    case Broadcast =>
      if w.connection.Some? && w.connection.value.next < |w.log| then BroadcastNext(w) else w
    case Raise(eventId) =>
      if eventId <= LastId(w.log) then
        w.(client := OnSnapshot(w.client, eventId), skipped := Covered(w, eventId))
      else w
    case SetFence(eventId) =>
      if eventId <= LastId(w.log) then
        w.(client := OnSwitch(w.client, eventId), skipped := Covered(w, eventId))
      else w
    case Leave(tell) =>
      if w.client.subscription.Idle? then w
      else
        w.(client := w.client.(subscription := Idle),
           stale := if w.client.subscription.Replaying? then w.stale + [w.client.subscription.cursor] else w.stale,
           connection :=
             if w.connection.Some? && tell then Some(w.connection.value.(leaving := true)) else w.connection)
    case Unsubscribe =>
      if w.connection.Some? && w.connection.value.leaving then
        w.(connection := Some(w.connection.value.(subscribed := false, highWater := 0, leaving := false)))
      else w
    case Fail => if w.client.subscription.Replaying? then w.(client := w.client.(subscription := Idle)) else w
  }

  const START: World := World(Client(false, 0, [], Idle), None, [], 0, [], {})

  // ---------- What holds in every safe run ----------

  predicate Ascending(events: seq<Event>) {
    forall i, j | 0 <= i < j < |events| :: events[i].id < events[j].id
  }

  predicate BelowMark(events: seq<Event>, bound: nat) {
    forall i | 0 <= i < |events| :: events[i].id <= bound
  }

  /** The events up to `highWater` that were not skipped. */
  function Owed(log: seq<Event>, highWater: nat, skipped: set<nat>): seq<Event> {
    if log == [] then []
    else
      var earlier := Owed(log[..|log| - 1], highWater, skipped);
      var last := log[|log| - 1];
      if last.id <= highWater && last.id !in skipped then earlier + [last] else earlier
  }

  predicate Logged(events: seq<Event>, log: seq<Event>) {
    forall i | 0 <= i < |events| :: events[i] in log
  }

  /** A stored event the client still has to handle. */
  predicate IsOwed(w: World, i: nat)
    requires i < |w.log|
  {
    i >= w.cleared && w.log[i].id > w.client.highWater && w.log[i].id !in w.skipped
  }

  predicate NothingOwed(w: World) { forall i | 0 <= i < |w.log| :: !IsOwed(w, i) }

  /** No owed event has been passed over by the connection. */
  predicate NothingMissed(w: World, connection: Connection) {
    forall i | 0 <= i < |w.log| :: IsOwed(w, i) ==> i >= connection.next && w.log[i].id > connection.highWater
  }

  /** The id of the last of the first `next` events. */
  function PassedId(log: seq<Event>, next: nat): nat {
    if 0 < next <= |log| then log[next - 1].id else 0
  }

  /** Up to here everything is done with: it is at or below the fence, or cleared. */
  function Mark(w: World): nat { Max(w.client.highWater, PassedId(w.log, w.cleared)) }

  /** Everything at or below the fence or cleared, and not skipped, was handled, once, in log
      order. */
  predicate Complete(w: World) {
    w.client.handled == Owed(w.log, Mark(w), w.skipped)
  }

  ghost predicate ConnectionOk(w: World) {
    w.connection.Some? ==> w.connection.value.highWater <= LastId(w.log) && w.connection.value.next <= |w.log|
  }

  /** What the replay collected, and that the rest is still to come. */
  ghost predicate ReplayOk(w: World, cursor: nat, replayed: seq<Event>, buffer: seq<Event>) {
    && cursor <= LastId(w.log)
    && Ascending(replayed) && BelowMark(replayed, cursor) && Logged(replayed, w.log)
    && forall i | 0 <= i < |w.log| && IsOwed(w, i) :: w.log[i] in replayed || w.log[i] in buffer || w.log[i].id > cursor
  }

  /** After a page the daemon has subscribed the session and reached the cursor. */
  predicate Collected(connection: Connection, cursor: nat) {
    connection.subscribed && !connection.leaving && connection.highWater >= cursor
  }

  ghost predicate SubscriptionOk(w: World) {
    match w.client.subscription
    case Idle => w.connection.None? || !w.connection.value.subscribed || NothingMissed(w, w.connection.value)
    case Replaying(cursor, replayed, buffer) =>
      && w.connection.Some?
      && Ascending(buffer) && BelowMark(buffer, PassedId(w.log, w.connection.value.next)) && Logged(buffer, w.log)
      && (replayed != [] ==> cursor.Some? && Collected(w.connection.value, cursor.value))
      && (cursor.None? ==> w.client.handled == [])
      && (cursor.Some? ==> ReplayOk(w, cursor.value, replayed, buffer))
    case Live =>
      && w.connection.Some? && w.connection.value.subscribed && !w.connection.value.leaving
      && NothingMissed(w, w.connection.value)
  }

  ghost predicate LogOk(w: World) {
    && Ascending(w.log) && (forall i | 0 <= i < |w.log| :: w.log[i].id > 0)
    && w.cleared <= |w.log| && w.client.highWater <= LastId(w.log)
    && (forall id | id in w.skipped :: id <= LastId(w.log))
  }

  ghost predicate Sound(w: World) {
    && LogOk(w) && Complete(w) && ConnectionOk(w) && SubscriptionOk(w) && w.stale == []
    && (!w.client.known ==> w.client.highWater == 0 && w.client.handled == [])
  }

  /** An event that is cleared and that the connection has not looked at could still be pushed. */
  predicate Settled(id: nat, cleared: nat, passed: nat) { id <= cleared ==> id <= passed }

  /** Whatever the connection may still deliver is newer than everything handled. */
  ghost predicate OnlyNews(client: Client, connection: Connection, cleared: nat, passed: nat) {
    var last := LastId(client.handled);
    && Settled(last, cleared, passed)
    && (connection.subscribed ==> last <= Max(connection.highWater, passed))
    && match client.subscription
       case Replaying(cursor, replayed, buffer) =>
         && (forall i | 0 <= i < |replayed| :: replayed[i].id > last && Settled(replayed[i].id, cleared, passed))
         && (forall i | 0 <= i < |buffer| :: buffer[i].id > last)
         && (cursor.Some? ==> last <= Max(cursor.value, cleared))
       case _ => true
  }

  ghost predicate NothingReturns(w: World) {
    w.connection.Some? ==>
      OnlyNews(w.client, w.connection.value, PassedId(w.log, w.cleared), PassedId(w.log, w.connection.value.next))
  }

  ghost predicate Invariant(w: World) { Sound(w) && NothingReturns(w) }

  // ---------- Lists of events ----------

  predicate NonDecreasing(events: seq<Event>) {
    forall i, j | 0 <= i < j < |events| :: events[i].id <= events[j].id
  }

  lemma {:induction false} MergeMembers(a: seq<Event>, b: seq<Event>, e: Event)
    ensures e in Merge(a, b) <==> e in a || e in b
    decreases |a| + |b|
  {
    if a != [] && (b == [] || a[0].id <= b[0].id) {
      MergeMembers(a[1..], b, e);
      assert a == [a[0]] + a[1..];
    } else if a != [] {
      MergeMembers(a, b[1..], e);
      assert b == [b[0]] + b[1..];
    }
  }

  lemma {:induction false} MergeOrdered(a: seq<Event>, b: seq<Event>)
    requires NonDecreasing(a) && NonDecreasing(b)
    ensures NonDecreasing(Merge(a, b))
    decreases |a| + |b|
  {
    if a != [] {
      var fromA := b == [] || a[0].id <= b[0].id;
      var first := if fromA then a[0] else b[0];
      var rest := if fromA then Merge(a[1..], b) else Merge(a, b[1..]);
      if fromA {
        MergeOrdered(a[1..], b);
      } else {
        MergeOrdered(a, b[1..]);
      }
      forall i | 0 <= i < |rest|
        ensures first.id <= rest[i].id
      {
        if fromA {
          MergeMembers(a[1..], b, rest[i]);
        } else {
          MergeMembers(a, b[1..], rest[i]);
        }
      }
      assert Merge(a, b) == [first] + rest;
    }
  }

  lemma MergeFacts(a: seq<Event>, b: seq<Event>)
    requires NonDecreasing(a) && NonDecreasing(b)
    ensures NonDecreasing(Merge(a, b))
    ensures forall e :: e in Merge(a, b) <==> e in a || e in b
  {
    MergeOrdered(a, b);
    forall e
      ensures e in Merge(a, b) <==> e in a || e in b
    {
      MergeMembers(a, b, e);
    }
  }

  /** Above a cursor lies a suffix of the log. */
  lemma {:induction false} AfterSuffix(log: seq<Event>, cursor: nat) returns (k: nat)
    requires Ascending(log)
    ensures k <= |log| && After(log, cursor) == log[k..]
    ensures forall i | 0 <= i < k :: log[i].id <= cursor
    ensures forall i | k <= i < |log| :: log[i].id > cursor
  {
    if log == [] {
      k := 0;
    } else {
      var n := |log| - 1;
      var init := log[..n];
      k := AfterSuffix(init, cursor);
      if log[n].id > cursor {
        assert log[k..] == init[k..] + [log[n]];
      } else {
        k := |log|;
      }
    }
  }

  lemma LastIsGreatest(log: seq<Event>)
    requires Ascending(log)
    ensures forall i | 0 <= i < |log| :: log[i].id <= LastId(log)
  {
  }

  lemma {:induction false} OwedSame(log: seq<Event>, h: nat, s: set<nat>, h': nat, s': set<nat>)
    requires forall i | 0 <= i < |log| :: (log[i].id <= h && log[i].id !in s) <==> (log[i].id <= h' && log[i].id !in s')
    ensures Owed(log, h, s) == Owed(log, h', s')
  {
    if log != [] {
      var init := log[..|log| - 1];
      assert forall i | 0 <= i < |init| :: init[i] == log[i];
      OwedSame(init, h, s, h', s');
    }
  }

  lemma {:induction false} OwedNothing(log: seq<Event>, highWater: nat, skipped: set<nat>)
    requires forall i | 0 <= i < |log| :: log[i].id in skipped
    ensures Owed(log, highWater, skipped) == []
  {
    if log != [] {
      OwedNothing(log[..|log| - 1], highWater, skipped);
    }
  }

  lemma OwedAppend(log: seq<Event>, event: Event, highWater: nat, skipped: set<nat>)
    requires event.id > highWater
    ensures Owed(log + [event], highWater, skipped) == Owed(log, highWater, skipped)
  {
    assert (log + [event])[..|log|] == log;
  }

  /** Admitting one more event, behind all the others, adds exactly that event. */
  lemma {:induction false} OwedReach(log: seq<Event>, m: nat, s: set<nat>, m': nat, s': set<nat>, k: nat)
    requires Ascending(log) && k < |log| && log[k].id <= m' && log[k].id !in s' && (log[k].id > m || log[k].id in s)
    requires forall i | 0 <= i < k :: (log[i].id <= m && log[i].id !in s) <==> (log[i].id <= m' && log[i].id !in s')
    requires forall i | k < i < |log| :: (log[i].id > m || log[i].id in s) && (log[i].id > m' || log[i].id in s')
    ensures Owed(log, m', s') == Owed(log, m, s) + [log[k]]
  {
    var n := |log| - 1;
    var init := log[..n];
    if k == n {
      OwedSame(init, m, s, m', s');
    } else {
      OwedReach(init, m, s, m', s', k);
    }
  }

  lemma {:induction false} OwedAscending(log: seq<Event>, highWater: nat, skipped: set<nat>)
    requires Ascending(log)
    ensures Ascending(Owed(log, highWater, skipped))
    ensures forall e :: e in Owed(log, highWater, skipped) <==> e in log && e.id <= highWater && e.id !in skipped
  {
    if log != [] {
      var n := |log| - 1;
      OwedAscending(log[..n], highWater, skipped);
      assert log == log[..n] + [log[n]];
      assert forall e | e in log[..n] :: e.id < log[n].id;
    }
  }

  // ---------- Feeding events through the fence ----------

  /** Every owed event up to `bound` is among `events`. */
  ghost predicate CoversUpTo(events: seq<Event>, log: seq<Event>, highWater: nat, skipped: set<nat>, bound: nat) {
    forall i | 0 <= i < |log| :: highWater < log[i].id <= bound && log[i].id !in skipped ==> log[i] in events
  }

  lemma OwedWithout(log: seq<Event>, highWater: nat, skipped: set<nat>)
    requires Ascending(log)
    ensures Owed(log, highWater, skipped - Ids(Owed(log, highWater, skipped))) == Owed(log, highWater, skipped)
  {
    var handled := Owed(log, highWater, skipped);
    OwedAscending(log, highWater, skipped);
    forall i | 0 <= i < |log| && log[i].id <= highWater
      ensures log[i].id in skipped <==> log[i].id in skipped - Ids(handled)
    {
      if log[i].id in Ids(handled) {
        var j :| 0 <= j < |handled| && handled[j].id == log[i].id;
        assert handled[j] in handled;
      }
    }
    OwedSame(log, highWater, skipped, highWater, skipped - Ids(handled));
  }

  /** An event above the fence is newer than everything handled. */
  ghost predicate Newer(events: seq<Event>, client: Client) {
    forall i | 0 <= i < |events| :: events[i].id > client.highWater ==> events[i].id > LastId(client.handled)
  }

  /** Nothing from a newer event on is among the handled ones. */
  lemma NoneHandledFrom(log: seq<Event>, handled: seq<Event>, mark: nat, skipped: set<nat>, k: nat)
    requires Ascending(log) && k < |log| && handled == Owed(log, mark, skipped) && log[k].id > LastId(handled)
    ensures forall i | k <= i < |log| :: log[i].id > mark || log[i].id in skipped
  {
    OwedAscending(log, mark, skipped);
    LastIsGreatest(handled);
    hide Owed, LastId;
    assert forall e | e in handled :: e.id <= LastId(handled);
    assert forall i | k <= i < |log| :: log[i].id >= log[k].id && log[i] in log;
  }

  /** One new event: it goes behind everything handled. */
  lemma HandleNew(client: Client, log: seq<Event>, skipped: set<nat>, base: nat, k: nat)
    requires Ascending(log) && k < |log| && log[k].id > client.highWater && log[k].id > LastId(client.handled)
    requires client.handled == Owed(log, Max(client.highWater, base), skipped)
    requires forall i | 0 <= i < k :: log[i].id > Max(client.highWater, base) ==> log[i].id in skipped
    ensures var next := Handle(client, log[k]);
            next.handled == Owed(log, Max(next.highWater, base), skipped - {log[k].id})
  {
    var m := Max(client.highWater, base);
    var m' := Max(log[k].id, base);
    NoneHandledFrom(log, client.handled, m, skipped, k);
    hide Owed, LastId;
    assert forall i | 0 <= i < k :: log[i].id < log[k].id;
    assert forall i | k < i < |log| :: log[i].id > log[k].id;
    OwedReach(log, m, skipped, m', skipped - {log[k].id}, k);
  }

  lemma HandleOne(client: Client, log: seq<Event>, skipped: set<nat>, events: seq<Event>, bound: nat, base: nat)
    requires Ascending(log) && events != [] && NonDecreasing(events) && Logged(events, log) && BelowMark(events, bound)
    requires client.handled == Owed(log, Max(client.highWater, base), skipped) && Newer(events, client)
    requires CoversUpTo(events, log, Max(client.highWater, base), skipped, bound)
    ensures var e := events[0];
            var next := Handle(client, e);
            var left := if e.id > client.highWater then skipped - {e.id} else skipped;
            && next.handled == Owed(log, Max(next.highWater, base), left)
            && CoversUpTo(events[1..], log, Max(next.highWater, base), left, bound)
            && Newer(events[1..], next)
  {
    var e := events[0];
    var k :| 0 <= k < |log| && log[k] == e;
    var next := Handle(client, e);
    assert events == [e] + events[1..];
    hide Owed;
    forall i | 0 <= i < |log| && Max(next.highWater, base) < log[i].id <= bound && log[i].id !in skipped
      ensures log[i] in events[1..]
    {
      assert log[i] in events;
    }
    if e.id > client.highWater {
      assert forall x | x in events :: e.id <= x.id;
      HandleNew(client, log, skipped, base, k);
    }
  }

  /** Feeding ordered events that hold everything owed up to `bound`: afterwards nothing up to
      there is owed, and what was handled is no longer skipped. */
  lemma {:induction false} HandleMerged(client: Client, log: seq<Event>, skipped: set<nat>, events: seq<Event>, bound: nat, base: nat)
    requires Ascending(log) && NonDecreasing(events) && Logged(events, log) && BelowMark(events, bound)
    requires client.handled == Owed(log, Max(client.highWater, base), skipped) && Newer(events, client)
    requires CoversUpTo(events, log, Max(client.highWater, base), skipped, bound)
    requires client.highWater <= LastId(log)
    ensures var done := HandleAll(client, events);
            && done.handled == Owed(log, Max(done.highWater, base), skipped - Ids(done.handled))
            && client.highWater <= done.highWater <= LastId(log)
            && CoversUpTo([], log, Max(done.highWater, base), skipped, bound)
            && done.subscription == client.subscription
            && (!done.known ==> done == client)
            && client.handled <= done.handled
            && (LastId(done.handled) == LastId(client.handled) || LastId(done.handled) in Ids(events))
    decreases |events|
  {
    if events == [] {
      OwedWithout(log, Max(client.highWater, base), skipped);
    } else {
      var e := events[0];
      var next := Handle(client, e);
      HandleOne(client, log, skipped, events, bound, base);
      LastIsGreatest(log);
      var left := if e.id > client.highWater then skipped - {e.id} else skipped;
      hide Owed;
      HandleMerged(next, log, left, events[1..], bound, base);
      var done := HandleAll(next, events[1..]);
      TailIds(events);
      if e.id > client.highWater {
        assert done.handled[|next.handled| - 1] == e;
        assert left - Ids(done.handled) == skipped - Ids(done.handled);
      }
    }
  }

  lemma TailIds(events: seq<Event>)
    requires events != []
    ensures events[0].id in Ids(events) && Ids(events[1..]) <= Ids(events)
  {
    assert forall i | 0 <= i < |events[1..]| :: events[1..][i] == events[i + 1];
  }

  // ---------- Every safe step keeps the invariant ----------

  lemma LoggedAppend(events: seq<Event>, log: seq<Event>, event: Event)
    requires Logged(events, log)
    ensures Logged(events, log + [event])
  {
  }

  lemma OwedAfterAppend(w: World, event: Event)
    requires LogOk(w) && event.id > LastId(w.log)
    ensures var next := Next(w, Append(event));
            && forall i | 0 <= i < |w.log| :: IsOwed(next, i) <==> IsOwed(w, i)
  {
  }

  lemma AppendOwes(w: World, event: Event)
    requires LogOk(w) && event.id > LastId(w.log)
    ensures LogOk(Next(w, Append(event))) && Mark(Next(w, Append(event))) == Mark(w) && Mark(w) <= LastId(w.log)
  {
    LastIsGreatest(w.log);
  }

  lemma AppendReplay(w: World, event: Event)
    requires LogOk(w) && event.id > LastId(w.log) && w.client.subscription.Replaying? && w.client.subscription.cursor.Some?
    requires var Replaying(Some(cursor), replayed, buffer) := w.client.subscription; ReplayOk(w, cursor, replayed, buffer)
    ensures var Replaying(Some(cursor), replayed, buffer) := w.client.subscription;
            ReplayOk(Next(w, Append(event)), cursor, replayed, buffer)
  {
    LoggedAppend(w.client.subscription.replayed, w.log, event);
    OwedAfterAppend(w, event);
    hide Logged, Ascending, IsOwed, LogOk;
  }

  lemma AppendMisses(w: World, event: Event, connection: Connection)
    requires LogOk(w) && event.id > LastId(w.log) && connection.next <= |w.log| && connection.highWater <= LastId(w.log)
    ensures NothingMissed(w, connection) ==> NothingMissed(Next(w, Append(event)), connection)
    ensures PassedId(w.log + [event], connection.next) == PassedId(w.log, connection.next)
  {
    OwedAfterAppend(w, event);
    hide Ascending, IsOwed, LogOk;
  }

  lemma AppendStep(w: World, event: Event)
    requires Sound(w)
    ensures Sound(Next(w, Append(event)))
  {
    if event.id > LastId(w.log) {
      var next := Next(w, Append(event));
      AppendOwes(w, event);
      OwedAppend(w.log, event, Mark(w), w.skipped);
      if w.connection.Some? {
        AppendMisses(w, event, w.connection.value);
      }
      if w.client.subscription.Replaying? {
        LoggedAppend(w.client.subscription.buffer, w.log, event);
        if w.client.subscription.cursor.Some? {
          AppendReplay(w, event);
        }
      }
      assert next == w.(log := w.log + [event]);
      assert LastId(next.log) == event.id;
      hide Owed, Logged, LogOk, Next, PassedId, Ascending, ReplayOk, NothingMissed, LastId, Mark;
      assert SubscriptionOk(next);
    }
  }

  /** Stored events lie above the last cleared one. */
  lemma StoredAbove(w: World)
    requires LogOk(w)
    ensures forall i | 0 <= i < |w.log| :: i >= w.cleared <==> w.log[i].id > PassedId(w.log, w.cleared)
    ensures Mark(w) <= LastId(w.log)
  {
    LastIsGreatest(w.log);
    assert w.cleared > 0 ==> forall i | w.cleared <= i < |w.log| :: w.log[w.cleared - 1].id < w.log[i].id;
  }

  /** What is handled lies below the mark; the rest below it is skipped. */
  lemma DoneBelow(w: World)
    requires LogOk(w) && Complete(w)
    ensures forall id | id in Ids(w.client.handled) :: id <= Mark(w)
    ensures forall i | 0 <= i < |w.log| :: w.log[i] in w.client.handled <==> w.log[i].id in Ids(w.client.handled)
    ensures forall i | 0 <= i < |w.log| :: w.log[i] in w.client.handled <==> w.log[i].id <= Mark(w) && w.log[i].id !in w.skipped
    ensures LastId(w.client.handled) <= Mark(w) && Ascending(w.client.handled) && Logged(w.client.handled, w.log)
  {
    OwedAscending(w.log, Mark(w), w.skipped);
    var handled := w.client.handled;
    assert forall j | 0 <= j < |handled| :: handled[j] in handled;
    hide Owed;
    forall i | 0 <= i < |w.log| && w.log[i].id in Ids(handled)
      ensures w.log[i] in handled
    {
      var j :| 0 <= j < |handled| && handled[j].id == w.log[i].id;
      assert handled[j] in w.log;
      var k :| 0 <= k < |w.log| && w.log[k] == handled[j];
      assert k == i;
    }
  }

  /** Dropping handled ids from the skipped set changes nothing that is owed. */
  lemma Tidy(w: World)
    requires LogOk(w) && Complete(w)
    ensures var tidy := w.(skipped := w.skipped - Ids(w.client.handled));
            && Complete(tidy) && forall i | 0 <= i < |w.log| :: IsOwed(tidy, i) <==> IsOwed(w, i)
  {
    OwedWithout(w.log, Mark(w), w.skipped);
    DoneBelow(w);
    StoredAbove(w);
    hide Owed, Ids, LogOk;
  }

  /** The log, the connection and the subscription stay, and nothing more is owed. */
  ghost predicate OwesNoMore(w: World, next: World) {
    && next.log == w.log && next.connection == w.connection && next.cleared == w.cleared && next.stale == w.stale
    && next.client.subscription == w.client.subscription && next.client.handled == w.client.handled
    && forall i | 0 <= i < |w.log| :: IsOwed(next, i) ==> IsOwed(w, i)
  }

  lemma FenceMoved(w: World, next: World)
    requires Sound(w) && OwesNoMore(w, next) && next.client.known && Complete(next)
    requires next.client.highWater <= LastId(w.log) && forall id | id in next.skipped :: id <= LastId(w.log)
    ensures Sound(next)
  {
    hide Owed, Logged, Ascending;
    if w.client.subscription.Replaying? && w.client.subscription.cursor.Some? {
      var Replaying(cursor, replayed, buffer) := w.client.subscription;
      assert ReplayOk(next, cursor.value, replayed, buffer);
    }
  }

  /** A fence that leaves no handled stored event above it. */
  lemma FenceWritten(w: World, eventId: nat, fence: nat, next: World)
    requires Sound(w) && eventId <= LastId(w.log) && fence <= LastId(w.log)
    requires fence == eventId || (fence == w.client.highWater && eventId <= fence)
    requires forall i | w.cleared <= i < |w.log| && w.log[i] in w.client.handled :: w.log[i].id <= fence
    requires next == w.(client := w.client.(known := true, highWater := fence), skipped := Covered(w, eventId))
    ensures Sound(next)
  {
    DoneBelow(w);
    StoredAbove(w);
    LastIsGreatest(w.log);
    assert forall i | 0 <= i < |w.log| :: w.log[i].id in IdsIn(w.log, w.client.highWater, eventId) <==>
                                          w.client.highWater < w.log[i].id <= eventId;
    FenceOwed(w, eventId, fence, next);
    OwedSame(w.log, Mark(w), w.skipped, Mark(next), next.skipped);
    assert forall id | id in next.skipped :: id <= LastId(w.log);
    hide Owed, IdsIn, Ids;
    FenceMoved(w, next);
  }

  lemma FenceOwed(w: World, eventId: nat, fence: nat, next: World)
    requires LogOk(w) && Complete(w) && eventId <= LastId(w.log) && fence <= LastId(w.log)
    requires fence == eventId || (fence == w.client.highWater && eventId <= fence)
    requires forall i | w.cleared <= i < |w.log| && w.log[i] in w.client.handled :: w.log[i].id <= fence
    requires next == w.(client := w.client.(known := true, highWater := fence), skipped := Covered(w, eventId))
    ensures forall i | 0 <= i < |w.log| :: IsOwed(next, i) ==> IsOwed(w, i)
    ensures forall i | 0 <= i < |w.log| ::
              (w.log[i].id <= Mark(w) && w.log[i].id !in w.skipped) <==> (w.log[i].id <= Mark(next) && w.log[i].id !in next.skipped)
  {
    DoneBelow(w);
    StoredAbove(w);
    assert forall i | 0 <= i < |w.log| :: w.log[i].id in IdsIn(w.log, w.client.highWater, eventId) <==>
                                          w.client.highWater < w.log[i].id <= eventId;
    hide Owed, IdsIn, Ids, LogOk, Ascending, Complete;
    assert PassedId(next.log, next.cleared) == PassedId(w.log, w.cleared);
  }

  lemma RaiseStep(w: World, eventId: nat)
    requires Sound(w)
    ensures Sound(Next(w, Raise(eventId)))
  {
    if eventId <= LastId(w.log) {
      DoneBelow(w);
      StoredAbove(w);
      var fence := Max(w.client.highWater, eventId);
      hide Owed, Covered, SubscriptionOk, LogOk, Complete;
      FenceWritten(w, eventId, fence, Next(w, Raise(eventId)));
    }
  }

  lemma SetFenceStep(w: World, eventId: nat)
    requires Sound(w) && NoneStoredAbove(w, eventId)
    ensures Sound(Next(w, SetFence(eventId)))
  {
    if eventId <= LastId(w.log) {
      FenceWritten(w, eventId, eventId, Next(w, SetFence(eventId)));
    }
  }

  /** No handled event that is still stored lies above the id. */
  predicate NoneStoredAbove(w: World, eventId: nat) {
    forall i | w.cleared <= i < |w.log| && w.log[i] in w.client.handled :: w.log[i].id <= eventId
  }

  lemma SubscribeOwed(w: World)
    requires LogOk(w)
    ensures Owed(w.log, Mark(w), Next(w, Subscribe).skipped) == Owed(w.log, Mark(w), w.skipped)
    ensures Next(w, Subscribe).skipped <= w.skipped
  {
    var next := Next(w, Subscribe);
    RowsAbove(w);
    hide Owed, IdsIn, Rows, LogOk, Mark;
    OwedSame(w.log, Mark(w), w.skipped, Mark(w), next.skipped);
  }

  lemma SubscribeStep(w: World)
    requires Sound(w)
    ensures Sound(Next(w, Subscribe))
  {
    var next := Next(w, Subscribe);
    SubscribeOwed(w);
    assert next.client.highWater <= LastId(next.log);
    assert LogOk(next);
    hide Owed, IdsIn, Rows, LogOk, LastId;
  }

  lemma RowsAbove(w: World)
    requires LogOk(w)
    ensures forall id | id in IdsIn(Rows(w), w.client.highWater, LastId(w.log)) :: id > Mark(w)
  {
    StoredAbove(w);
    assert forall j | 0 <= j < |Rows(w)| :: Rows(w)[j] == w.log[w.cleared + j];
    hide LogOk, LastId;
  }

  /** The connection alone changes. */
  lemma ConnectionChanged(w: World, next: World)
    requires Sound(w) && w.stale == next.stale
    requires next == w.(client := next.client, connection := next.connection)
    requires next.client == w.client.(subscription := next.client.subscription)
    requires ConnectionOk(next) && SubscriptionOk(next)
    ensures Sound(next)
  {
    hide Owed, Logged, Ascending;
    assert forall i | 0 <= i < |w.log| :: IsOwed(next, i) <==> IsOwed(w, i);
  }

  lemma ConnectionSteps(w: World, step: Step)
    requires Sound(w) && (step.Connect? || step.Disconnect? || step.Unsubscribe?)
    ensures Sound(Next(w, step))
  {
    var next := Next(w, step);
    hide Owed, Logged, Ascending;
    if step.Unsubscribe? && w.client.subscription.Replaying? && w.client.subscription.cursor.Some? {
      var Replaying(cursor, replayed, buffer) := w.client.subscription;
      assert ReplayOk(next, cursor.value, replayed, buffer);
    }
    ConnectionChanged(w, next);
  }

  // ---------- Replay pages ----------

  /** A full page ends where the rest begins. */
  lemma PageSplit(rows: seq<Event>, cursor: nat, limit: nat)
    requires Ascending(rows) && 0 < limit < |After(rows, cursor)|
    ensures var page := After(rows, cursor)[..limit];
            var reached := page[limit - 1].id;
            && Ascending(page) && BelowMark(page, reached) && (forall i | 0 <= i < |page| :: page[i].id > cursor)
            && Logged(page, rows) && cursor < reached <= LastId(rows)
            && forall i | 0 <= i < |rows| && cursor < rows[i].id <= reached :: rows[i] in page
  {
    var rest := After(rows, cursor);
    var page := rest[..limit];
    var k := AfterSuffix(rows, cursor);
    LastIsGreatest(rows);
    assert forall i | 0 <= i < limit :: page[i] == rows[k + i];
    forall i | 0 <= i < |rows| && cursor < rows[i].id <= page[limit - 1].id
      ensures rows[i] in page
    {
      assert k <= i < k + limit;
      assert page[i - k] == rows[i];
    }
  }

  lemma TailFacts(log: seq<Event>, k: nat)
    requires Ascending(log) && k <= |log|
    ensures Ascending(log[k..]) && LastId(log[k..]) <= LastId(log)
    ensures forall i | k <= i < |log| :: log[i] in log[k..]
    ensures forall e | e in log[k..] :: e in log
  {
    var rows := log[k..];
    assert forall i | 0 <= i < |rows| :: rows[i] == log[k + i];
    forall i | k <= i < |log|
      ensures log[i] in rows
    {
      assert rows[i - k] == log[i];
    }
  }

  /** Rows stand at the end of the log. */
  lemma RowsFacts(w: World)
    requires LogOk(w)
    ensures Ascending(Rows(w)) && LastId(Rows(w)) <= LastId(w.log)
    ensures forall e | e in Rows(w) :: e in w.log
    ensures forall i | 0 <= i < |w.log| && IsOwed(w, i) :: w.log[i] in Rows(w)
  {
    TailFacts(w.log, w.cleared);
    hide Ascending, LastId;
  }

  lemma AscendingConcat(a: seq<Event>, b: seq<Event>, mid: nat)
    requires Ascending(a) && Ascending(b) && BelowMark(a, mid) && forall i | 0 <= i < |b| :: b[i].id > mid
    ensures Ascending(a + b)
  {
  }

  /** What is still to come after a full page. */
  lemma MoreCovered(w: World, limit: nat, cursor: nat, replayed: seq<Event>, buffer: seq<Event>)
    requires LogOk(w) && limit > 0 && |After(Rows(w), cursor)| > limit && ReplayOk(w, cursor, replayed, buffer)
    ensures var page := After(Rows(w), cursor)[..limit];
            forall i | 0 <= i < |w.log| && IsOwed(w, i) ::
              w.log[i] in replayed + page || w.log[i] in buffer || w.log[i].id > page[limit - 1].id
  {
    var rows := Rows(w);
    var page := After(rows, cursor)[..limit];
    RowsFacts(w);
    PageSplit(rows, cursor, limit);
    hide After, Ascending, Rows, LogOk, IsOwed, Logged, BelowMark, LastId;
    forall i | 0 <= i < |w.log| && IsOwed(w, i)
      ensures w.log[i] in replayed + page || w.log[i] in buffer || w.log[i].id > page[limit - 1].id
    {
      assert w.log[i] in rows;
      if cursor < w.log[i].id <= page[limit - 1].id {
        var j :| 0 <= j < |rows| && rows[j] == w.log[i];
        assert rows[j] in page;
      }
    }
  }

  lemma MoreReplayed(w: World, limit: nat)
    requires LogOk(w) && limit > 0 && w.client.subscription.Replaying? && w.client.subscription.cursor.Some?
    requires |After(Rows(w), w.client.subscription.cursor.value)| > limit
    requires var Replaying(Some(cursor), replayed, buffer) := w.client.subscription; ReplayOk(w, cursor, replayed, buffer)
    ensures var Replaying(Some(cursor), replayed, buffer) := w.client.subscription;
            var page := After(Rows(w), cursor)[..limit];
            ReplayOk(w, page[limit - 1].id, replayed + page, buffer)
  {
    var Replaying(Some(cursor), replayed, buffer) := w.client.subscription;
    var rows := Rows(w);
    var page := After(rows, cursor)[..limit];
    var reached := page[limit - 1].id;
    MoreCovered(w, limit, cursor, replayed, buffer);
    RowsFacts(w);
    PageSplit(rows, cursor, limit);
    AscendingConcat(replayed, page, cursor);
    hide After, Ascending, Rows, LogOk, IsOwed, LastId;
    assert Logged(replayed + page, w.log) by {
      assert forall i | 0 <= i < |page| :: page[i] in rows;
    }
    assert BelowMark(replayed + page, reached);
  }

  /** The subscription and connection change, the owed events do not. */
  lemma ReplayChanged(w: World, next: World)
    requires Sound(w) && next.log == w.log && next.cleared == w.cleared && next.stale == w.stale
    requires next.client == w.client.(subscription := next.client.subscription)
    requires next.skipped == w.skipped - Ids(w.client.handled)
    requires ConnectionOk(next)
    ensures LogOk(next) && Complete(next)
    ensures forall i | 0 <= i < |w.log| :: IsOwed(next, i) <==> IsOwed(w, i)
    ensures SubscriptionOk(next) ==> Sound(next)
  {
    Tidy(w);
    hide Owed, Ascending, SubscriptionOk, ConnectionOk;
    assert forall i | 0 <= i < |w.log| :: IsOwed(next, i) <==> IsOwed(w, i);
  }

  lemma ServeMore(connection: Connection, rows: seq<Event>, cursor: nat, limit: nat)
    requires Ascending(rows) && 0 < limit < |After(rows, cursor)|
    ensures var page := After(rows, cursor)[..limit];
            var reached := page[limit - 1].id;
            && Serve(connection, rows, Some(cursor), limit) ==
               Reply(connection.(subscribed := true, highWater := Max(Max(connection.highWater, cursor), reached)),
                     page, true, Some(reached))
            && cursor < reached <= LastId(rows)
  {
    PageSplit(rows, cursor, limit);
    hide After, Ascending, LastId, Logged, BelowMark;
  }

  lemma MoreEffect(w: World, limit: nat)
    requires LogOk(w) && CanPage(w, limit) && w.client.subscription.cursor.Some?
    requires |After(Rows(w), w.client.subscription.cursor.value)| > limit
    ensures var Replaying(Some(cursor), replayed, buffer) := w.client.subscription;
            var page := After(Rows(w), cursor)[..limit];
            var next := Next(w, Page(limit));
            && next.client == w.client.(subscription := Replaying(Some(page[limit - 1].id), replayed + page, buffer))
            && next.log == w.log && next.cleared == w.cleared && next.stale == w.stale
            && next.skipped == w.skipped - Ids(w.client.handled)
            && next.connection.Some? && next.connection.value.next == w.connection.value.next
            && Collected(next.connection.value, page[limit - 1].id)
            && (ConnectionOk(w) && cursor <= LastId(w.log) ==> ConnectionOk(next))
  {
    RowsFacts(w);
    ServeMore(w.connection.value, Rows(w), w.client.subscription.cursor.value, limit);
    hide After, Rows, LogOk, LastId, Serve, Ids, Ascending;
  }

  lemma MorePages(w: World, limit: nat)
    requires Sound(w) && CanPage(w, limit) && w.client.subscription.cursor.Some?
    requires |After(Rows(w), w.client.subscription.cursor.value)| > limit
    ensures Sound(Next(w, Page(limit)))
  {
    var Replaying(Some(cursor), replayed, buffer) := w.client.subscription;
    var page := After(Rows(w), cursor)[..limit];
    var next := Next(w, Page(limit));
    MoreEffect(w, limit);
    MoreReplayed(w, limit);
    hide After, Owed, Ascending, Rows, Logged, BelowMark, Next, LogOk, Complete;
    ReplayChanged(w, next);
    hide IsOwed;
    assert ReplayOk(next, page[limit - 1].id, replayed + page, buffer);
  }

  lemma RestFacts(rows: seq<Event>, cursor: nat)
    requires Ascending(rows)
    ensures Ascending(After(rows, cursor)) && forall i | 0 <= i < |After(rows, cursor)| :: After(rows, cursor)[i].id > cursor
    ensures forall e :: e in After(rows, cursor) <==> e in rows && e.id > cursor
  {
    var rest := After(rows, cursor);
    var k := AfterSuffix(rows, cursor);
    hide After;
    assert forall i | 0 <= i < |rest| :: rest[i] == rows[k + i];
    forall e | e in rows && e.id > cursor
      ensures e in rest
    {
      var i :| 0 <= i < |rows| && rows[i] == e;
      assert rest[i - k] == e;
    }
  }

  /** Whatever is owed is among what the replay delivers. */
  lemma ReplayCovers(w: World, cursor: nat, replayed: seq<Event>, buffer: seq<Event>, merged: seq<Event>)
    requires LogOk(w) && ReplayOk(w, cursor, replayed, buffer)
    requires forall e :: e in merged <==> e in replayed + After(Rows(w), cursor) || e in buffer
    ensures CoversUpTo(merged, w.log, Mark(w), w.skipped, LastId(w.log))
  {
    RowsFacts(w);
    RestFacts(Rows(w), cursor);
    StoredAbove(w);
    hide After, Rows, LogOk, Ascending, LastId, PassedId, Logged, BelowMark;
    forall i | 0 <= i < |w.log| && w.log[i].id > Mark(w) && w.log[i].id !in w.skipped
      ensures w.log[i] in merged
    {
      assert IsOwed(w, i);
      assert w.log[i] in Rows(w);
      assert w.log[i] in replayed + After(Rows(w), cursor) || w.log[i] in buffer;
    }
  }

  lemma FinishReplay(w: World)
    requires LogOk(w) && w.client.subscription.Replaying? && w.client.subscription.cursor.Some?
    requires var Replaying(Some(cursor), replayed, buffer) := w.client.subscription;
             ReplayOk(w, cursor, replayed, buffer) && Ascending(buffer) && Logged(buffer, w.log)
    ensures var Replaying(Some(cursor), replayed, buffer) := w.client.subscription;
            var merged := Merge(replayed + After(Rows(w), cursor), buffer);
            && NonDecreasing(merged) && Logged(merged, w.log) && BelowMark(merged, LastId(w.log))
            && CoversUpTo(merged, w.log, Mark(w), w.skipped, LastId(w.log))
  {
    var Replaying(Some(cursor), replayed, buffer) := w.client.subscription;
    var rest := After(Rows(w), cursor);
    var merged := Merge(replayed + rest, buffer);
    RowsFacts(w);
    RestFacts(Rows(w), cursor);
    ReplayOrdered(w);
    MergeFacts(replayed + rest, buffer);
    LastIsGreatest(w.log);
    hide After, Rows, LogOk, Merge, Ascending, LastId, NonDecreasing, CoversUpTo, Mark, IsOwed;
    ReplayCovers(w, cursor, replayed, buffer, merged);
    assert forall e | e in replayed :: e in w.log;
    assert forall e | e in buffer :: e in w.log;
    assert forall e | e in merged :: e in w.log;
    assert forall i | 0 <= i < |merged| :: merged[i] in merged;
  }

  lemma AscendingIsOrdered(events: seq<Event>)
    requires Ascending(events)
    ensures NonDecreasing(events)
  {
  }

  /** The client and connection after events were fed to the fence. */
  lemma FedStep(w: World, client: Client, connection: Connection, skipped: set<nat>, bound: nat)
    requires LogOk(w) && w.stale == []
    requires client.handled == Owed(w.log, Max(client.highWater, PassedId(w.log, w.cleared)), skipped - Ids(client.handled))
    requires w.client.highWater <= client.highWater <= LastId(w.log) && w.skipped <= skipped
    requires forall id | id in skipped :: id <= LastId(w.log)
    requires CoversUpTo([], w.log, Max(client.highWater, PassedId(w.log, w.cleared)), skipped, bound)
    requires forall i | 0 <= i < |w.log| && w.log[i].id > bound && w.log[i].id !in skipped ::
               i >= connection.next && w.log[i].id > connection.highWater
    requires connection.subscribed && connection.highWater <= LastId(w.log) && connection.next <= |w.log|
    requires client.subscription.Idle? || (client.subscription.Live? && !connection.leaving)
    requires !client.known ==> client.highWater == 0 && client.handled == []
    ensures Sound(WithClient(w, client, connection, skipped))
  {
    var next := WithClient(w, client, connection, skipped);
    assert LogOk(next) && Complete(next);
    DoneBelow(next);
    StoredAbove(next);
    hide Owed, Ids, LogOk, Complete;
    assert forall i | 0 <= i < |w.log| && IsOwed(next, i) :: w.log[i].id > Mark(next) && w.log[i].id !in skipped;
    assert NothingMissed(next, connection);
  }

  lemma ServeLast(connection: Connection, rows: seq<Event>, cursor: nat, limit: nat)
    requires Ascending(rows) && |After(rows, cursor)| <= limit
    ensures var reply := Serve(connection, rows, Some(cursor), limit);
            && reply.page == After(rows, cursor) && !reply.hasMore
            && reply.connection == connection.(subscribed := true, highWater := reply.connection.highWater)
            && reply.connection.highWater <= Max(Max(connection.highWater, cursor), LastId(rows))
  {
    var k := AfterSuffix(rows, cursor);
    LastIsGreatest(rows);
    hide After, Ascending;
  }

  lemma LastEffect(w: World, limit: nat)
    requires LogOk(w) && CanPage(w, limit) && w.client.subscription.cursor.Some? && ConnectionOk(w)
    requires w.client.subscription.cursor.value <= LastId(w.log)
    requires |After(Rows(w), w.client.subscription.cursor.value)| <= limit
    ensures var Replaying(Some(cursor), replayed, buffer) := w.client.subscription;
            var connection := Serve(w.connection.value, Rows(w), Some(cursor), limit).connection;
            && Next(w, Page(limit)) ==
               WithClient(w, HandleAll(w.client.(subscription := Live), Merge(replayed + After(Rows(w), cursor), buffer)),
                          connection, w.skipped)
            && connection.subscribed && !connection.leaving && connection.next == w.connection.value.next
            && connection.highWater <= LastId(w.log)
  {
    var cursor := w.client.subscription.cursor.value;
    RowsFacts(w);
    ServeLast(w.connection.value, Rows(w), cursor, limit);
    hide After, Rows, Ascending, LastId, LogOk, Serve, HandleAll, Merge, Ids;
  }

  /** Everything a replay delivers is newer than what was handled. */
  lemma ReplayIsNews(w: World)
    requires LogOk(w) && w.connection.Some? && NothingReturns(w)
    requires w.client.subscription.Replaying? && w.client.subscription.cursor.Some?
    ensures var Replaying(Some(cursor), replayed, buffer) := w.client.subscription;
            forall e | e in replayed + After(Rows(w), cursor) || e in buffer :: e.id > LastId(w.client.handled)
  {
    var Replaying(Some(cursor), replayed, buffer) := w.client.subscription;
    RowsFacts(w);
    RestFacts(Rows(w), cursor);
    RowsUncleared(w);
    hide After, Rows, LogOk, PassedId, LastId;
    assert forall e | e in replayed :: e.id > LastId(w.client.handled);
    assert forall e | e in buffer :: e.id > LastId(w.client.handled);
  }

  lemma RowsUncleared(w: World)
    requires LogOk(w)
    ensures forall e | e in Rows(w) :: e.id > PassedId(w.log, w.cleared)
  {
    StoredAbove(w);
    assert forall j | 0 <= j < |Rows(w)| :: Rows(w)[j] == w.log[w.cleared + j];
    hide LogOk;
  }

  lemma MergedIsNews(a: seq<Event>, b: seq<Event>, client: Client)
    requires NonDecreasing(a) && NonDecreasing(b)
    requires forall e | e in a || e in b :: e.id > LastId(client.handled)
    ensures Newer(Merge(a, b), client)
  {
    MergeFacts(a, b);
    var merged := Merge(a, b);
    hide Merge, LastId;
    assert forall i | 0 <= i < |merged| :: merged[i] in merged;
  }

  lemma LastPage(w: World, limit: nat)
    requires Invariant(w) && CanPage(w, limit) && w.client.subscription.cursor.Some?
    requires |After(Rows(w), w.client.subscription.cursor.value)| <= limit
    ensures Sound(Next(w, Page(limit)))
  {
    var Replaying(Some(cursor), replayed, buffer) := w.client.subscription;
    var rest := After(Rows(w), cursor);
    var merged := Merge(replayed + rest, buffer);
    var connection := Serve(w.connection.value, Rows(w), Some(cursor), limit).connection;
    LastEffect(w, limit);
    FinishReplay(w);
    ReplayIsNews(w);
    ReplayOrdered(w);
    LastIsGreatest(w.log);
    hide After, Owed, Rows, Logged, BelowMark, Next, Merge, HandleAll, Serve, PassedId, NothingReturns, LastId;
    MergedIsNews(replayed + rest, buffer, w.client);
    HandleMerged(w.client.(subscription := Live), w.log, w.skipped, merged, LastId(w.log), PassedId(w.log, w.cleared));
    FedStep(w, HandleAll(w.client.(subscription := Live), merged), connection, w.skipped, LastId(w.log));
  }

  lemma ReplayOrdered(w: World)
    requires LogOk(w) && w.client.subscription.Replaying? && w.client.subscription.cursor.Some?
    requires var Replaying(Some(cursor), replayed, buffer) := w.client.subscription;
             ReplayOk(w, cursor, replayed, buffer) && Ascending(buffer)
    ensures var Replaying(Some(cursor), replayed, buffer) := w.client.subscription;
            NonDecreasing(replayed + After(Rows(w), cursor)) && NonDecreasing(buffer)
  {
    var Replaying(Some(cursor), replayed, buffer) := w.client.subscription;
    RowsFacts(w);
    RestFacts(Rows(w), cursor);
    AscendingConcat(replayed, After(Rows(w), cursor), cursor);
    AscendingIsOrdered(replayed + After(Rows(w), cursor));
    AscendingIsOrdered(buffer);
  }

  lemma {:induction false} OwedNone(log: seq<Event>, highWater: nat, skipped: set<nat>, more: set<nat>)
    requires Owed(log, highWater, skipped) == [] && skipped <= more
    ensures Owed(log, highWater, more) == []
  {
    if log != [] {
      OwedNone(log[..|log| - 1], highWater, skipped, more);
    }
  }

  /** Up to the last event looked at, every event counts as passed. */
  lemma PassedBelow(log: seq<Event>, connection: Connection)
    requires Ascending(log) && connection.next <= |log|
    ensures forall i | 0 <= i < |log| && log[i].id <= PassedId(log, connection.next) :: log[i].id in Passed(log, connection)
    ensures forall i | 0 <= i < |log| && log[i].id !in Passed(log, connection) ::
              i >= connection.next && log[i].id > connection.highWater
    ensures forall id | id in Passed(log, connection) :: id <= LastId(log)
  {
    LastIsGreatest(log);
    assert connection.next > 0 ==> forall i | connection.next <= i < |log| :: log[connection.next - 1].id < log[i].id;
  }

  lemma CursorlessEffect(w: World, limit: nat)
    requires LogOk(w) && CanPage(w, limit) && w.client.subscription.cursor.None? && w.client.subscription.replayed == []
    ensures var connection := w.connection.value.(subscribed := true, highWater := LastId(Rows(w)));
            && Next(w, Page(limit)) ==
               WithClient(w, HandleAll(w.client.(subscription := Live), w.client.subscription.buffer), connection,
                          w.skipped + Passed(w.log, connection))
            && connection.highWater <= LastId(w.log)
  {
    var buffer := w.client.subscription.buffer;
    var nothing: seq<Event> := [];
    assert nothing + nothing == nothing;
    assert Merge(nothing, buffer) == buffer;
    RowsFacts(w);
    hide Rows, LastId, HandleAll, Merge, LogOk, Passed;
  }

  lemma PageWithoutCursor(w: World, limit: nat)
    requires Sound(w) && CanPage(w, limit) && w.client.subscription.cursor.None?
    ensures Sound(Next(w, Page(limit)))
  {
    var buffer := w.client.subscription.buffer;
    var connection := w.connection.value.(subscribed := true, highWater := LastId(Rows(w)));
    var skipped := w.skipped + Passed(w.log, connection);
    var bound := PassedId(w.log, connection.next);
    var client := HandleAll(w.client.(subscription := Live), buffer);
    CursorlessEffect(w, limit);
    OwedNone(w.log, Mark(w), w.skipped, skipped);
    PassedBelow(w.log, connection);
    AscendingIsOrdered(buffer);
    assert Newer(buffer, w.client);
    hide Next, Owed, Rows, HandleAll, Passed, PassedId, Logged, BelowMark;
    HandleMerged(w.client.(subscription := Live), w.log, skipped, buffer, bound, PassedId(w.log, w.cleared));
    FedStep(w, client, connection, skipped, bound);
  }

  // ---------- Pushes ----------

  lemma PassedGrows(log: seq<Event>, next: nat)
    requires Ascending(log) && next < |log|
    ensures PassedId(log, next) <= PassedId(log, next + 1) == log[next].id
    ensures next > 0 ==> PassedId(log, next) < log[next].id
  {
  }

  lemma BufferGrows(log: seq<Event>, next: nat, buffer: seq<Event>)
    requires Ascending(log) && next < |log| && log[next].id > 0
    requires Ascending(buffer) && BelowMark(buffer, PassedId(log, next)) && Logged(buffer, log)
    ensures var more := buffer + [log[next]];
            Ascending(more) && BelowMark(more, PassedId(log, next + 1)) && Logged(more, log)
  {
    PassedGrows(log, next);
    hide PassedId;
    AscendingConcat(buffer, [log[next]], PassedId(log, next));
  }

  lemma PushEffect(w: World)
    requires w.connection.Some?
    requires var c := w.connection.value; c.next < |w.log| && c.subscribed && w.log[c.next].id > c.highWater
    ensures var c := w.connection.value;
            var event := w.log[c.next];
            Next(w, Broadcast) == WithClient(w, OnPush(w.client, event), c.(highWater := event.id, next := c.next + 1), w.skipped)
  {
  }

  /** A push during a replay joins the buffer. */
  lemma PushBuffered(w: World)
    requires Sound(w) && w.client.subscription.Replaying? && w.connection.value.next < |w.log|
    requires var c := w.connection.value; c.next < |w.log| && c.subscribed && w.log[c.next].id > c.highWater
    ensures Sound(Next(w, Broadcast))
  {
    var Replaying(cursor, replayed, buffer) := w.client.subscription;
    var connection := w.connection.value;
    var next := Next(w, Broadcast);
    PushEffect(w);
    LastIsGreatest(w.log);
    BufferGrows(w.log, connection.next, buffer);
    hide Owed, Ascending, PassedId, Logged, BelowMark, LogOk, Complete, Next;
    assert ConnectionOk(next);
    ReplayChanged(w, next);
    hide IsOwed;
    if cursor.Some? {
      assert forall e | e in buffer :: e in buffer + [w.log[connection.next]];
      assert ReplayOk(next, cursor.value, replayed, next.client.subscription.buffer);
    }
  }

  /** Up to the next event to look at, only that event can be owed. */
  lemma OnlyNextOwed(w: World, connection: Connection)
    requires LogOk(w) && NothingMissed(w, connection) && connection.next < |w.log|
    ensures var event := w.log[connection.next];
            && CoversUpTo([event], w.log, Mark(w), w.skipped, event.id)
            && forall i | 0 <= i < |w.log| && w.log[i].id > event.id :: i >= connection.next + 1
  {
    var event := w.log[connection.next];
    StoredAbove(w);
    assert forall i | connection.next < i < |w.log| :: w.log[i].id > event.id;
    assert forall i | 0 <= i < connection.next :: w.log[i].id < event.id;
    forall i | 0 <= i < |w.log| && Mark(w) < w.log[i].id <= event.id && w.log[i].id !in w.skipped
      ensures w.log[i] in [event]
    {
      assert IsOwed(w, i);
      assert i == connection.next;
    }
  }

  lemma HandleSingle(client: Client, event: Event)
    ensures HandleAll(client, [event]) == Handle(client, event)
  {
    assert [event][1..] == [];
  }

  /** A pushed event is newer than everything handled. */
  lemma PushIsNews(w: World)
    requires LogOk(w) && w.connection.Some? && NothingReturns(w)
    requires var c := w.connection.value; c.next < |w.log| && c.subscribed && w.log[c.next].id > c.highWater
    ensures w.log[w.connection.value.next].id > LastId(w.client.handled)
  {
    PassedGrows(w.log, w.connection.value.next);
  }

  /** A push outside a replay goes to the fence; the connection has missed nothing. */
  lemma PushHandled(w: World)
    requires Invariant(w) && !w.client.subscription.Replaying? && w.connection.Some?
    requires var c := w.connection.value; c.next < |w.log| && c.subscribed && w.log[c.next].id > c.highWater
    ensures Sound(Next(w, Broadcast))
  {
    var connection := w.connection.value;
    var event := w.log[connection.next];
    PushEffect(w);
    PushIsNews(w);
    OnlyNextOwed(w, connection);
    LastIsGreatest(w.log);
    FedByPush(w.client, w.log, w.skipped, connection.next, PassedId(w.log, w.cleared));
    hide Owed, HandleAll, Next, NothingMissed, PassedId, NothingReturns, CoversUpTo;
    FedStep(w, Handle(w.client, event), connection.(highWater := event.id, next := connection.next + 1), w.skipped, event.id);
  }

  lemma FedByPush(client: Client, log: seq<Event>, skipped: set<nat>, k: nat, base: nat)
    requires Ascending(log) && k < |log| && client.highWater <= LastId(log) && log[k].id > LastId(client.handled)
    requires client.handled == Owed(log, Max(client.highWater, base), skipped)
    requires CoversUpTo([log[k]], log, Max(client.highWater, base), skipped, log[k].id)
    ensures var done := Handle(client, log[k]);
            && done.handled == Owed(log, Max(done.highWater, base), skipped - Ids(done.handled))
            && client.highWater <= done.highWater <= LastId(log)
            && CoversUpTo([], log, Max(done.highWater, base), skipped, log[k].id)
            && done.subscription == client.subscription && (!done.known ==> done == client)
  {
    HandleSingle(client, log[k]);
    hide Owed, HandleAll, CoversUpTo;
    HandleMerged(client, log, skipped, [log[k]], log[k].id, base);
  }

  lemma PassedOver(w: World)
    requires Sound(w) && w.connection.Some?
    requires var c := w.connection.value; c.next < |w.log| && !(c.subscribed && w.log[c.next].id > c.highWater)
    ensures Sound(Next(w, Broadcast))
  {
    var next := Next(w, Broadcast);
    PassedGrows(w.log, w.connection.value.next);
    hide Owed, Logged, Ascending, PassedId;
    if w.client.subscription.Replaying? && w.client.subscription.cursor.Some? {
      var Replaying(cursor, replayed, buffer) := w.client.subscription;
      assert ReplayOk(next, cursor.value, replayed, buffer);
    }
    ConnectionChanged(w, next);
  }

  // ---------- What may still be delivered is new ----------

  lemma PassedMonotone(log: seq<Event>, a: nat, b: nat)
    requires Ascending(log) && a <= b <= |log|
    ensures PassedId(log, a) <= PassedId(log, b)
  {
  }

  lemma PassedStays(log: seq<Event>, event: Event, next: nat)
    requires next <= |log|
    ensures PassedId(log + [event], next) == PassedId(log, next)
  {
  }

  lemma AppendNews(w: World, event: Event)
    requires Invariant(w)
    ensures NothingReturns(Next(w, Append(event)))
  {
    PassedStays(w.log, event, w.cleared);
    if w.connection.Some? {
      PassedStays(w.log, event, w.connection.value.next);
    }
    hide PassedId, LastId, Complete, SubscriptionOk;
  }

  lemma ConnectNews(w: World, step: Step)
    requires Invariant(w) && (step.Connect? || step.Disconnect? || step.Unsubscribe? || step.Fail? || step.Leave?)
    ensures NothingReturns(Next(w, step))
  {
    if step.Connect? && w.connection.None? && w.cleared <= step.next <= |w.log| {
      PassedMonotone(w.log, w.cleared, step.next);
    }
    hide PassedId, LastId, Complete, LogOk;
  }

  lemma SubscribeNews(w: World)
    requires Invariant(w)
    ensures NothingReturns(Next(w, Subscribe))
  {
    DoneBelow(w);
    hide PassedId, LastId, Complete, LogOk, Ids, IdsIn, Rows, SubscriptionOk;
  }

  lemma FenceNews(w: World, step: Step)
    requires NothingReturns(w) && (step.Raise? || step.SetFence?)
    ensures NothingReturns(Next(w, step))
  {
    hide PassedId, LastId, Covered;
  }

  lemma PageSettled(w: World, limit: nat, cursor: nat, last: nat)
    requires LogOk(w) && 0 < limit < |After(Rows(w), cursor)| && last <= Max(cursor, PassedId(w.log, w.cleared))
    ensures forall e | e in After(Rows(w), cursor)[..limit] :: e.id > last && e.id > PassedId(w.log, w.cleared)
  {
    RowsFacts(w);
    RestFacts(Rows(w), cursor);
    RowsUncleared(w);
    var rest := After(Rows(w), cursor);
    hide After, Rows, LogOk, PassedId, Ascending;
    assert forall e | e in rest[..limit] :: e in rest;
  }

  lemma MoreNews(w: World, limit: nat)
    requires Invariant(w) && CanPage(w, limit) && w.client.subscription.cursor.Some?
    requires |After(Rows(w), w.client.subscription.cursor.value)| > limit
    ensures NothingReturns(Next(w, Page(limit)))
  {
    var Replaying(Some(cursor), replayed, buffer) := w.client.subscription;
    var page := After(Rows(w), cursor)[..limit];
    var next := Next(w, Page(limit));
    MoreEffect(w, limit);
    ServeMore(w.connection.value, Rows(w), cursor, limit) by { RowsFacts(w); }
    var cleared, passed := PassedId(w.log, w.cleared), PassedId(w.log, w.connection.value.next);
    var last := LastId(w.client.handled);
    PageSettled(w, limit, cursor, last);
    hide Next, After, Rows, PassedId, LastId, Complete, LogOk, SubscriptionOk, Ascending, Logged, BelowMark, Serve;
    assert forall i | 0 <= i < |page| :: page[i] in page;
    assert OnlyNews(next.client, next.connection.value, cleared, passed);
  }

  /** After feeding events, each of which is settled and known to the connection. */
  lemma FedNews(client: Client, connection: Connection, last: nat, events: seq<Event>, cleared: nat, passed: nat)
    requires !client.subscription.Replaying?
    requires Settled(last, cleared, passed) && last <= Max(connection.highWater, passed)
    requires forall i | 0 <= i < |events| ::
               Settled(events[i].id, cleared, passed) && events[i].id <= Max(connection.highWater, passed)
    requires LastId(client.handled) == last || LastId(client.handled) in Ids(events)
    ensures OnlyNews(client, connection, cleared, passed)
  {
    hide LastId;
  }

  lemma ServeReaches(connection: Connection, rows: seq<Event>, cursor: nat, limit: nat)
    requires Ascending(rows) && |After(rows, cursor)| <= limit
    ensures var hw := Serve(connection, rows, Some(cursor), limit).connection.highWater;
            cursor <= hw && BelowMark(After(rows, cursor), hw)
  {
    RestFacts(rows, cursor);
    LastIsGreatest(After(rows, cursor));
    hide After, Ascending;
  }

  lemma RestSettled(w: World, connection: Connection, cursor: nat, limit: nat)
    requires LogOk(w) && |After(Rows(w), cursor)| <= limit
    ensures var hw := Serve(connection, Rows(w), Some(cursor), limit).connection.highWater;
            && cursor <= hw
            && forall e | e in After(Rows(w), cursor) :: e.id > PassedId(w.log, w.cleared) && e.id <= hw
  {
    RowsFacts(w);
    ServeReaches(connection, Rows(w), cursor, limit);
    RowsUncleared(w);
    RestFacts(Rows(w), cursor);
    hide After, Rows, Serve, PassedId, LogOk, Ascending;
  }

  /** What the last page hands over is settled and known to the connection. */
  lemma LastPageSettled(w: World, limit: nat)
    requires Invariant(w) && CanPage(w, limit) && w.client.subscription.cursor.Some?
    requires |After(Rows(w), w.client.subscription.cursor.value)| <= limit
    ensures var Replaying(Some(cursor), replayed, buffer) := w.client.subscription;
            var connection := Serve(w.connection.value, Rows(w), Some(cursor), limit).connection;
            var cleared, passed := PassedId(w.log, w.cleared), PassedId(w.log, w.connection.value.next);
            && (forall e | e in replayed + After(Rows(w), cursor) || e in buffer ::
                  Settled(e.id, cleared, passed) && e.id <= Max(connection.highWater, passed))
            && LastId(w.client.handled) <= Max(connection.highWater, passed)
  {
    var Replaying(Some(cursor), replayed, buffer) := w.client.subscription;
    var rest := After(Rows(w), cursor);
    RestSettled(w, w.connection.value, cursor, limit);
    hide After, Rows, Serve, PassedId, LastId, LogOk, Complete, Ascending, Logged, IsOwed;
    assert forall e | e in replayed + rest :: e in replayed || e in rest;
    assert forall e | e in replayed :: e.id <= cursor;
    assert forall e | e in buffer :: e.id <= PassedId(w.log, w.connection.value.next);
  }

  lemma LastNews(w: World, limit: nat)
    requires Invariant(w) && CanPage(w, limit) && w.client.subscription.cursor.Some?
    requires |After(Rows(w), w.client.subscription.cursor.value)| <= limit
    ensures NothingReturns(Next(w, Page(limit)))
  {
    var Replaying(Some(cursor), replayed, buffer) := w.client.subscription;
    var rest := After(Rows(w), cursor);
    var merged := Merge(replayed + rest, buffer);
    var connection := Serve(w.connection.value, Rows(w), Some(cursor), limit).connection;
    var client := HandleAll(w.client.(subscription := Live), merged);
    LastEffect(w, limit);
    FinishReplay(w);
    ReplayIsNews(w);
    ReplayOrdered(w);
    LastIsGreatest(w.log);
    LastPageSettled(w, limit);
    MergeFacts(replayed + rest, buffer);
    hide After, Owed, Rows, Logged, BelowMark, Next, Merge, HandleAll, Serve, PassedId, LastId;
    MergedIsNews(replayed + rest, buffer, w.client);
    HandleMerged(w.client.(subscription := Live), w.log, w.skipped, merged, LastId(w.log), PassedId(w.log, w.cleared));
    assert forall i | 0 <= i < |merged| :: merged[i] in merged;
    FedNews(client, connection, LastId(w.client.handled), merged, PassedId(w.log, w.cleared),
            PassedId(w.log, w.connection.value.next));
  }

  lemma CursorlessNews(w: World, limit: nat)
    requires Invariant(w) && CanPage(w, limit) && w.client.subscription.cursor.None?
    ensures NothingReturns(Next(w, Page(limit)))
  {
    var buffer := w.client.subscription.buffer;
    var connection := w.connection.value.(subscribed := true, highWater := LastId(Rows(w)));
    var client := HandleAll(w.client.(subscription := Live), buffer);
    CursorlessEffect(w, limit);
    AscendingIsOrdered(buffer);
    HandledLast(w.client.(subscription := Live), buffer);
    HandleAllKeeps(w.client.(subscription := Live), buffer);
    assert LastId([]) == 0;
    hide Next, Owed, Rows, HandleAll, PassedId, Logged, Passed;
    FedNews(client, connection, 0, buffer, PassedId(w.log, w.cleared), PassedId(w.log, connection.next));
  }

  lemma {:induction false} HandleAllKeeps(client: Client, events: seq<Event>)
    ensures client.known ==> HandleAll(client, events).known
    ensures HandleAll(client, events).subscription == client.subscription
    ensures client.highWater <= HandleAll(client, events).highWater
    decreases |events|
  {
    if events != [] {
      HandleAllKeeps(Handle(client, events[0]), events[1..]);
    }
  }

  lemma {:induction false} HandledLast(client: Client, events: seq<Event>)
    ensures var done := HandleAll(client, events);
            LastId(done.handled) == LastId(client.handled) || LastId(done.handled) in Ids(events)
    decreases |events|
  {
    if events != [] {
      HandledLast(Handle(client, events[0]), events[1..]);
      TailIds(events);
    }
  }

  lemma PushNews(w: World)
    requires Invariant(w) && w.connection.Some?
    requires var c := w.connection.value; c.next < |w.log| && c.subscribed && w.log[c.next].id > c.highWater
    ensures NothingReturns(Next(w, Broadcast))
  {
    var c := w.connection.value;
    var event := w.log[c.next];
    PushEffect(w);
    PushIsNews(w);
    PassedGrows(w.log, c.next);
    hide Next, PassedId, Complete, LogOk, SubscriptionOk, Ids;
  }

  lemma PassedNews(w: World)
    requires Invariant(w) && w.connection.Some?
    requires var c := w.connection.value; c.next < |w.log| && !(c.subscribed && w.log[c.next].id > c.highWater)
    ensures NothingReturns(Next(w, Broadcast))
  {
    PassedGrows(w.log, w.connection.value.next);
    hide PassedId, LastId, Complete, LogOk, SubscriptionOk;
  }

  // ---------- Safe runs ----------

  /** The connection has looked at everything the client handled or collected. */
  predicate AllLookedAt(w: World) {
    w.connection.Some? ==>
      var passed := PassedId(w.log, w.connection.value.next);
      && BelowMark(w.client.handled, passed)
      && (w.client.subscription.Replaying? ==> BelowMark(w.client.subscription.replayed, passed))
  }

  /** Which steps lose or repeat nothing, whatever follows: leaving outside a replay; a failed
      replay when the connection has passed over nothing owed; a fence write that no handled
      event still stored lies above; clearing the stored events when none is owed and none of
      those the client has is still to be broadcast to it. */
  predicate Safe(w: World, step: Step) {
    match step
    case Leave(_) => !w.client.subscription.Replaying?
    case Fail =>
      w.client.subscription.Replaying? && w.connection.Some? && w.connection.value.subscribed ==>
        NothingMissed(w, w.connection.value)
    case SetFence(eventId) => eventId <= LastId(w.log) ==> NoneStoredAbove(w, eventId)
    case ClearLog => NothingOwed(w) && AllLookedAt(w)
    case _ => true
  }

  function RunFrom(w: World, steps: seq<Step>): World {
    if steps == [] then w else Next(RunFrom(w, steps[..|steps| - 1]), steps[|steps| - 1])
  }

  predicate SafeRun(w: World, steps: seq<Step>) {
    forall k | 0 <= k < |steps| :: Safe(RunFrom(w, steps[..k]), steps[k])
  }

  lemma ClearStep(w: World)
    requires Sound(w) && NothingOwed(w)
    ensures Sound(Next(w, ClearLog))
  {
    var next := Next(w, ClearLog);
    StoredAbove(w);
    LastIsGreatest(w.log);
    assert Mark(next) == LastId(w.log);
    forall i | 0 <= i < |w.log| && w.log[i].id > Mark(w)
      ensures w.log[i].id in w.skipped
    {
      assert i >= w.cleared && !IsOwed(w, i);
    }
    OwedSame(w.log, Mark(w), w.skipped, Mark(next), w.skipped);
    hide Owed, Logged, Ascending;
    assert forall i | 0 <= i < |w.log| :: !IsOwed(next, i);
    if w.client.subscription.Replaying? && w.client.subscription.cursor.Some? {
      var Replaying(cursor, replayed, buffer) := w.client.subscription;
      assert ReplayOk(next, cursor.value, replayed, buffer);
    }
  }

  lemma ClearNews(w: World)
    requires Invariant(w) && AllLookedAt(w)
    ensures NothingReturns(Next(w, ClearLog))
  {
    if w.connection.Some? {
      PassedMonotone(w.log, w.cleared, |w.log|);
      hide PassedId, Complete, LogOk, SubscriptionOk;
    }
  }

  lemma DepartureStep(w: World, step: Step)
    requires Sound(w) && Safe(w, step) && (step.Leave? || step.Fail?)
    ensures Sound(Next(w, step))
  {
    hide Owed, Logged, Ascending;
    ConnectionChanged(w, Next(w, step));
  }

  lemma StepInvariant(w: World, step: Step)
    requires Invariant(w) && Safe(w, step)
    ensures Invariant(Next(w, step))
  {
    hide Sound, NothingReturns;
    match step {
      case Append(event) => AppendStep(w, event); AppendNews(w, event);
      case Connect(_) => ConnectionSteps(w, step); ConnectNews(w, step);
      case Disconnect => ConnectionSteps(w, step); ConnectNews(w, step);
      case Unsubscribe => ConnectionSteps(w, step); ConnectNews(w, step);
      case Subscribe => SubscribeStep(w); SubscribeNews(w);
      case Page(limit) => PageStep(w, limit);
      case StalePage(_, _) => NoStale(w);
      case Broadcast => BroadcastStep(w);
      case Raise(eventId) => RaiseStep(w, eventId); FenceNews(w, step);
      case SetFence(eventId) =>
        if eventId <= LastId(w.log) { SetFenceStep(w, eventId); FenceNews(w, step); }
      case ClearLog => ClearStep(w); ClearNews(w);
      case _ => DepartureStep(w, step); ConnectNews(w, step);
    }
  }

  lemma NoStale(w: World)
    requires Sound(w)
    ensures w.stale == []
  {
  }

  lemma PageStep(w: World, limit: nat)
    requires Invariant(w)
    ensures Invariant(Next(w, Page(limit)))
  {
    if CanPage(w, limit) {
      hide Sound, NothingReturns;
      var cursor := w.client.subscription.cursor;
      if cursor.None? {
        PageWithoutCursor(w, limit);
        CursorlessNews(w, limit);
      } else if |After(Rows(w), cursor.value)| > limit {
        MorePages(w, limit);
        MoreNews(w, limit);
      } else {
        LastPage(w, limit);
        LastNews(w, limit);
      }
    }
  }

  lemma BroadcastStep(w: World)
    requires Invariant(w)
    ensures Invariant(Next(w, Broadcast))
  {
    if w.connection.Some? && w.connection.value.next < |w.log| {
      var c := w.connection.value;
      hide Sound, NothingReturns;
      if !(c.subscribed && w.log[c.next].id > c.highWater) {
        PassedOver(w);
        PassedNews(w);
      } else {
        PushNews(w);
        if w.client.subscription.Replaying? {
          PushBuffered(w);
        } else {
          PushHandled(w);
        }
      }
    }
  }

  lemma SafePrefix(w: World, steps: seq<Step>, n: nat)
    requires SafeRun(w, steps) && n < |steps|
    ensures SafeRun(w, steps[..n]) && Safe(RunFrom(w, steps[..n]), steps[n])
  {
    hide Safe, RunFrom;
    assert forall k | 0 <= k < n :: steps[..n][..k] == steps[..k] && steps[..n][k] == steps[k];
  }

  lemma {:induction false} RunInvariant(w: World, steps: seq<Step>)
    requires Invariant(w) && SafeRun(w, steps)
    ensures Invariant(RunFrom(w, steps))
  {
    if steps != [] {
      var n := |steps| - 1;
      SafePrefix(w, steps, n);
      hide Invariant, Safe, SafeRun;
      RunInvariant(w, steps[..n]);
      StepInvariant(RunFrom(w, steps[..n]), steps[n]);
    }
  }

  lemma SafeRunInvariant(steps: seq<Step>)
    requires SafeRun(START, steps)
    ensures Invariant(RunFrom(START, steps))
  {
    RunInvariant(START, steps);
  }

  ghost predicate CaughtUp(w: World) {
    w.client.subscription.Live? && w.connection.Some? && w.connection.value.next == |w.log|
  }

  /** In every safe interleaving of logging, clearing, connections, replay pages, pushes, fence
      writes, departures and failures: the handled events are in strictly ascending order, and
      they are exactly the logged events that are at or below the fence or cleared and were not
      skipped; once a live connection has looked at the whole log, that is every logged event
      that was not skipped. */
  lemma HandledExactly(steps: seq<Step>)
    requires SafeRun(START, steps)
    ensures var w := RunFrom(START, steps);
            && Ascending(w.client.handled) && Logged(w.client.handled, w.log)
            && (forall i | 0 <= i < |w.log| ::
                  w.log[i] in w.client.handled <==>
                  (i < w.cleared || w.log[i].id <= w.client.highWater) && w.log[i].id !in w.skipped)
            && (CaughtUp(w) ==>
                  forall i | 0 <= i < |w.log| :: w.log[i] in w.client.handled <==> w.log[i].id !in w.skipped)
  {
    RunInvariant(START, steps);
    var w := RunFrom(START, steps);
    DoneBelow(w);
    StoredAbove(w);
    hide RunFrom, SafeRun, LogOk, Complete, NothingReturns, Ids, Ascending, Logged, PassedId;
    if CaughtUp(w) {
      assert forall i | 0 <= i < |w.log| :: !IsOwed(w, i);
    }
  }

  // ---------- Which steps are safe ----------

  /** Event `m` is neither handled nor skipped, and the connection will not push it any more. */
  ghost predicate Doomed(w: World, m: nat) {
    && m < |w.log| && Ascending(w.log) && w.client.highWater <= LastId(w.log)
    && w.log[m] !in w.client.handled && w.log[m].id !in w.skipped
    && !w.client.subscription.Replaying? && w.connection.Some?
    && var c := w.connection.value;
       && c.subscribed && c.highWater <= LastId(w.log) && c.next <= |w.log|
       && (m < c.next || w.log[m].id <= c.highWater)
  }

  lemma DoomedBroadcast(w: World, m: nat)
    requires Doomed(w, m) && w.connection.value.next < |w.log|
    ensures Doomed(Next(w, Broadcast), m)
    ensures var next := Next(w, Broadcast); next.log == w.log && next.connection.value.next == w.connection.value.next + 1
  {
    LastIsGreatest(w.log);
    var c := w.connection.value;
    assert m < c.next ==> w.log[m].id < w.log[c.next].id;
    assert w.log[m] != w.log[c.next] || !(c.subscribed && w.log[c.next].id > c.highWater);
  }

  lemma DoomedJump(w: World, m: nat)
    requires Doomed(w, m) && w.connection.value.next == |w.log|
    ensures var e := Event(LastId(w.log) + 1, 0);
            !Complete(Next(Next(w, Append(e)), Broadcast))
  {
    var e := Event(LastId(w.log) + 1, 0);
    LastIsGreatest(w.log);
    NewIsHandled(w, e);
    hide Next;
    var next := Next(Next(w, Append(e)), Broadcast);
    UpToTheEnd(w.log, e, next.skipped, m);
    hide Owed, Ascending, Handle;
    assert e.id > w.log[m].id;
    assert next.log == w.log + [e] && next.client.highWater == e.id;
    MarkIsHighest(next, e);
    assert w.log[m] !in next.client.handled;
  }

  lemma NewIsHandled(w: World, e: Event)
    requires w.connection.Some? && w.connection.value.subscribed && w.connection.value.next == |w.log|
    requires !w.client.subscription.Replaying?
    requires e.id > LastId(w.log) && w.connection.value.highWater <= LastId(w.log) && w.client.highWater <= LastId(w.log)
    ensures var next := Next(Next(w, Append(e)), Broadcast);
            && next.log == w.log + [e] && next.skipped <= w.skipped && next.cleared == w.cleared
            && next.client.highWater == e.id && next.client.handled == w.client.handled + [e]
  {
    assert (w.log + [e])[|w.log|] == e;
  }

  lemma MarkIsHighest(w: World, e: Event)
    requires Ascending(w.log) && w.log != [] && w.log[|w.log| - 1] == e && w.client.highWater == e.id
    ensures Mark(w) == e.id
  {
  }

  lemma UpToTheEnd(log: seq<Event>, e: Event, skipped: set<nat>, m: nat)
    requires Ascending(log + [e]) && m < |log| && log[m].id !in skipped
    ensures log[m] in Owed(log + [e], e.id, skipped)
  {
    OwedAscending(log + [e], e.id, skipped);
    hide Owed;
    assert (log + [e])[m] == log[m] && (log + [e])[|log|] == e;
  }

  predicate CalmStep(step: Step) { !step.Leave? && !step.Fail? && !step.SetFence? && !step.ClearLog? }

  /** Steps that are always safe. */
  predicate Calm(steps: seq<Step>) {
    forall k | 0 <= k < |steps| :: CalmStep(steps[k])
  }

  lemma RunSnoc(w: World, steps: seq<Step>, step: Step)
    ensures RunFrom(w, steps + [step]) == Next(RunFrom(w, steps), step)
  {
    assert (steps + [step])[..|steps|] == steps;
  }

  lemma {:induction false} RunConcat(w: World, a: seq<Step>, b: seq<Step>)
    ensures RunFrom(w, a + b) == RunFrom(RunFrom(w, a), b)
    decreases |b|
  {
    if b == [] {
      assert a + b == a;
    } else {
      RunConcat(w, a, b[..|b| - 1]);
      assert (a + b)[..|a + b| - 1] == a + b[..|b| - 1];
    }
  }

  lemma RunOne(w: World, step: Step)
    ensures RunFrom(w, [step]) == Next(w, step)
  {
    assert [step][..0] == [];
  }

  lemma RunTwo(w: World, a: Step, b: Step)
    ensures RunFrom(w, [a, b]) == Next(Next(w, a), b)
  {
    hide Next;
    RunOne(w, a);
    RunSnoc(w, [a], b);
    assert [a] + [b] == [a, b];
  }

  /** Once an event is doomed, pushes alone carry the fence over it. */
  lemma {:induction false} DoomedIsLost(w: World, m: nat) returns (more: seq<Step>)
    requires Doomed(w, m)
    ensures Calm(more) && !Complete(RunFrom(w, more))
    decreases |w.log| - w.connection.value.next
  {
    if w.connection.value.next == |w.log| {
      var e := Event(LastId(w.log) + 1, 0);
      more := [Append(e), Broadcast];
      DoomedJump(w, m);
      RunTwo(w, Append(e), Broadcast);
    } else {
      DoomedBroadcast(w, m);
      hide Doomed, Next, Complete;
      var rest := DoomedIsLost(Next(w, Broadcast), m);
      more := [Broadcast] + rest;
      RunConcat(w, [Broadcast], rest);
      RunOne(w, Broadcast);
    }
  }

  lemma NotHandledAbove(w: World, i: nat)
    requires LogOk(w) && Complete(w) && i < |w.log| && IsOwed(w, i)
    ensures w.log[i] !in w.client.handled
  {
    DoneBelow(w);
    StoredAbove(w);
    hide LogOk, Complete;
  }

  /** A failed replay: an owed event the connection has passed over is lost. */
  lemma FailLoses(w: World) returns (more: seq<Step>)
    requires Invariant(w) && !Safe(w, Fail)
    ensures Calm(more) && !Complete(RunFrom(Next(w, Fail), more))
  {
    var c := w.connection.value;
    var m :| 0 <= m < |w.log| && IsOwed(w, m) && !(m >= c.next && w.log[m].id > c.highWater);
    NotHandledAbove(w, m);
    more := DoomedIsLost(Next(w, Fail), m);
  }

  /** What an abandoned loop's page does to the connection once `e` is the last stored event. */
  lemma StaleReaches(connection: Connection, rows: seq<Event>, cursor: Option<nat>, e: Event, limit: nat)
    requires Ascending(rows + [e]) && limit > |rows| && (cursor.Some? ==> cursor.value < e.id) && connection.highWater <= e.id
    ensures var reply := Serve(connection, rows + [e], cursor, limit);
            reply.connection == connection.(subscribed := true, highWater := e.id)
  {
    if cursor.Some? {
      var k := AfterSuffix(rows + [e], cursor.value);
      assert (rows + [e])[|rows|] == e;
      hide After;
    }
  }

  /** The client left, and the abandoned loop was sent a page that ends with a new event. */
  function LeftThenServed(w: World, tell: bool): World {
    Next(Next(Next(w, Leave(tell)), Append(Event(LastId(w.log) + 1, 0))), StalePage(0, |w.log| + 1))
  }

  lemma NewIsUnhandled(w: World, e: Event)
    requires LogOk(w) && Complete(w) && e.id > LastId(w.log)
    ensures e !in w.client.handled
  {
    LastIsGreatest(w.log);
    DoneBelow(w);
    hide Owed, Complete;
  }

  lemma LeaveDooms(w: World, tell: bool)
    requires Invariant(w) && w.client.subscription.Replaying?
    ensures Doomed(LeftThenServed(w, tell), |w.log|)
  {
    var e := Event(LastId(w.log) + 1, 0);
    hide Next, Owed, LeftThenServed, Complete, NothingReturns, Logged, Ascending;
    var served := LeftThenServed(w, tell);
    StaleEffect(w, tell);
    NewIsUnhandled(w, e);
    assert served.log[|w.log|] == e;
  }

  /** An abandoned replay: its loop goes on asking for pages, and what it is sent is lost. */
  lemma LeaveLoses(w: World, tell: bool) returns (more: seq<Step>)
    requires Invariant(w) && !Safe(w, Leave(tell))
    ensures Calm(more) && !Complete(RunFrom(Next(w, Leave(tell)), more))
  {
    var left := Next(w, Leave(tell));
    var page := [Append(Event(LastId(w.log) + 1, 0)), StalePage(0, |w.log| + 1)];
    hide Next, Invariant, Doomed, Complete, RunFrom;
    LeaveDooms(w, tell);
    var rest := DoomedIsLost(LeftThenServed(w, tell), |w.log|);
    RunTwo(left, page[0], page[1]);
    RunConcat(left, page, rest);
    more := page + rest;
    CalmConcat(page, rest);
  }

  /** The world after the client left and `e` was logged. */
  function LeftThenLogged(w: World, tell: bool, e: Event): World
    requires w.client.subscription.Replaying? && w.connection.Some?
  {
    w.(client := w.client.(subscription := Idle), log := w.log + [e], stale := [w.client.subscription.cursor],
       connection := Some(w.connection.value.(leaving := w.connection.value.leaving || tell)))
  }

  lemma LeftEffect(w: World, tell: bool, e: Event)
    requires w.stale == [] && w.client.subscription.Replaying? && w.connection.Some? && e.id > LastId(w.log)
    ensures Next(Next(w, Leave(tell)), Append(e)) == LeftThenLogged(w, tell, e)
  {
    assert w.stale + [w.client.subscription.cursor] == [w.client.subscription.cursor];
  }

  lemma StalePageEffect(w: World, rows: seq<Event>, e: Event, limit: nat)
    requires |w.stale| == 1 && w.connection.Some? && Rows(w) == rows + [e] && Ascending(rows + [e]) && limit > |rows|
    requires w.stale[0].Some? ==> w.stale[0].value < e.id
    requires w.connection.value.highWater <= e.id
    ensures var next := Next(w, StalePage(0, limit));
            && next == w.(connection := next.connection, stale := next.stale)
            && next.connection == Some(w.connection.value.(subscribed := true, highWater := e.id))
  {
    StaleReaches(w.connection.value, rows, w.stale[0], e, limit);
    hide Serve, Rows, Ascending;
  }

  lemma AppendedRows(w: World, e: Event)
    requires LogOk(w) && e.id > LastId(w.log)
    ensures Ascending(w.log + [e]) && Ascending(w.log[w.cleared..] + [e]) && (w.log + [e])[w.cleared..] == w.log[w.cleared..] + [e]
  {
    LastIsGreatest(w.log);
    TailFacts(w.log + [e], w.cleared);
  }

  lemma StaleEffect(w: World, tell: bool)
    requires LogOk(w) && ConnectionOk(w) && w.stale == [] && w.client.subscription.Replaying? && w.connection.Some?
    requires w.client.subscription.cursor.Some? ==> w.client.subscription.cursor.value <= LastId(w.log)
    ensures var e := Event(LastId(w.log) + 1, 0);
            var served := LeftThenServed(w, tell);
            && served.log == w.log + [e] && Ascending(served.log) && served.skipped == w.skipped
            && served.client == w.client.(subscription := Idle)
            && served.connection.Some? && served.connection.value.subscribed
            && served.connection.value.highWater == e.id && served.connection.value.next == w.connection.value.next
  {
    var e := Event(LastId(w.log) + 1, 0);
    var logged := LeftThenLogged(w, tell, e);
    hide Next, Ascending, LogOk;
    LeftEffect(w, tell, e);
    AppendedRows(w, e);
    StalePageEffect(logged, w.log[w.cleared..], e, |w.log| + 1);
  }

  /** The stored events are cleared, and the client reconnects and subscribes. */
  function ClearedThenLive(w: World): World {
    Next(Next(Next(Next(Next(Next(w, ClearLog), Raise(0)), Disconnect), Connect(|w.log|)), Subscribe), Page(1))
  }

  lemma ClearDooms(w: World, m: nat)
    requires Invariant(w) && m < |w.log| && IsOwed(w, m)
    ensures Doomed(ClearedThenLive(w), m)
  {
    NotHandledAbove(w, m);
    ClearedReconnect(w);
    var live := ClearedThenLive(w);
    hide Next, Owed, ClearedThenLive, SubscriptionOk, Complete;
  }

  lemma CalmConcat(a: seq<Step>, b: seq<Step>)
    requires Calm(a) && Calm(b)
    ensures Calm(a + b)
  {
  }

  lemma ReconnectRuns(w: World) returns (steps: seq<Step>)
    ensures Calm(steps) && RunFrom(Next(w, ClearLog), steps) == ClearedThenLive(w)
  {
    steps := [Raise(0), Disconnect, Connect(|w.log|), Subscribe, Page(1)];
    hide Next, RunFrom;
    RunFive(Next(w, ClearLog), Raise(0), Disconnect, Connect(|w.log|), Subscribe, Page(1));
  }

  /** Clearing stored events while one is owed: after a reconnection it is lost. */
  lemma ClearLoses(w: World) returns (more: seq<Step>)
    requires Invariant(w) && !NothingOwed(w)
    ensures Calm(more) && !Complete(RunFrom(Next(w, ClearLog), more))
  {
    hide Next, Invariant, Doomed, Complete, IsOwed, RunFrom, ClearedThenLive, Calm;
    var m :| 0 <= m < |w.log| && IsOwed(w, m);
    ClearDooms(w, m);
    var rest := DoomedIsLost(ClearedThenLive(w), m);
    var steps := ReconnectRuns(w);
    more := steps + rest;
    CalmConcat(steps, rest);
    RunConcat(Next(w, ClearLog), steps, rest);
  }

  lemma RunFive(w: World, a: Step, b: Step, c: Step, d: Step, e: Step)
    ensures RunFrom(w, [a, b, c, d, e]) == Next(Next(Next(Next(Next(w, a), b), c), d), e)
  {
    hide Next;
    RunTwo(w, a, b);
    RunTwo(RunFrom(w, [a, b]), c, d);
    RunConcat(w, [a, b], [c, d]);
    RunSnoc(w, [a, b] + [c, d], e);
    assert [a, b] + [c, d] + [e] == [a, b, c, d, e];
  }

  lemma ClearedReconnect(w: World)
    requires Invariant(w)
    ensures var live := ClearedThenLive(w);
            && live.client == w.client.(known := true, subscription := Live)
            && live.connection == Some(Connection(true, w.client.highWater, |w.log|, false))
            && live.log == w.log && live.skipped <= w.skipped
  {
    var online := Next(Next(Next(Next(w, ClearLog), Raise(0)), Disconnect), Connect(|w.log|));
    assert IdsIn(w.log, w.client.highWater, 0) == {};
    assert online == w.(client := w.client.(known := true, subscription := Idle), cleared := |w.log|,
                        connection := Some(Connection(false, 0, |w.log|, false)), stale := [],
                        skipped := w.skipped - Ids(w.client.handled));
    assert Rows(online) == [];
    var asked := Next(online, Subscribe);
    assert asked.client.subscription == Replaying(Some(w.client.highWater), [], []);
    assert asked.skipped <= w.skipped;
    ReplayNothing(asked);
  }

  lemma ReplayNothing(w: World)
    requires w.connection.Some? && !w.connection.value.leaving && Rows(w) == []
    requires w.client.subscription == Replaying(Some(w.client.highWater), [], [])
    ensures var c := w.connection.value;
            Next(w, Page(1)) ==
            WithClient(w, w.client.(subscription := Live),
                       c.(subscribed := true, highWater := Max(c.highWater, w.client.highWater)), w.skipped)
  {
    var nothing: seq<Event> := [];
    assert After(nothing, w.client.highWater) == nothing;
    assert nothing + nothing == nothing;
    assert Merge(nothing, nothing) == nothing;
  }

  lemma CalmIsSafe(w: World, steps: seq<Step>)
    requires Calm(steps)
    ensures SafeRun(w, steps)
  {
    hide RunFrom;
    assert forall k | 0 <= k < |steps| :: CalmStep(steps[k]);
  }

  lemma SafeConcat(w: World, a: seq<Step>, b: seq<Step>)
    requires SafeRun(w, a) && SafeRun(RunFrom(w, a), b)
    ensures SafeRun(w, a + b)
  {
    hide Safe;
    forall k | 0 <= k < |a + b|
      ensures Safe(RunFrom(w, (a + b)[..k]), (a + b)[k])
    {
      if k < |a| {
        assert (a + b)[..k] == a[..k];
      } else {
        assert (a + b)[..k] == a + b[..k - |a|];
        RunConcat(w, a, b[..k - |a|]);
      }
    }
  }

  lemma SafeSnoc(w: World, steps: seq<Step>, step: Step)
    requires SafeRun(w, steps) && Safe(RunFrom(w, steps), step)
    ensures SafeRun(w, steps + [step]) && RunFrom(w, steps + [step]) == Next(RunFrom(w, steps), step)
  {
    hide Safe;
    RunSnoc(w, steps, step);
    var longer := steps + [step];
    forall k | 0 <= k < |longer|
      ensures Safe(RunFrom(w, longer[..k]), longer[k])
    {
      assert longer[..k] == steps[..k];
      if k == |steps| {
        assert steps[..k] == steps;
      }
    }
  }

  // ---------- A handled event that comes back ----------

  /** Event `k` was handled, lies above the fence again, and is about to be pushed. */
  ghost predicate Returning(w: World, k: nat) {
    && k < |w.log| && Ascending(w.log) && w.log[k] in w.client.handled && w.log[k].id > w.client.highWater
    && !w.client.subscription.Replaying? && w.connection.Some?
    && var c := w.connection.value;
       c.subscribed && c.highWater < w.log[k].id && c.next <= k
  }

  lemma ReturningBroadcast(w: World, k: nat)
    requires Returning(w, k) && w.connection.value.next < k
    ensures Returning(Next(w, Broadcast), k)
    ensures Next(w, Broadcast).connection.value.next == w.connection.value.next + 1
  {
    hide Ids;
    assert w.log[w.connection.value.next].id < w.log[k].id;
  }

  /** A list that holds an event twice is not in ascending order. */
  lemma TwiceIsNotAscending(events: seq<Event>, e: Event)
    requires e in events
    ensures !Ascending(events + [e])
  {
    var i :| 0 <= i < |events| && events[i] == e;
    var more := events + [e];
    assert more[i] == more[|events|];
  }

  lemma ReturningRepeats(w: World, k: nat)
    requires Returning(w, k) && w.connection.value.next == k
    ensures !Complete(Next(w, Broadcast))
  {
    var next := Next(w, Broadcast);
    assert next.client.handled == w.client.handled + [w.log[k]];
    TwiceIsNotAscending(w.client.handled, w.log[k]);
    OwedAscending(next.log, Mark(next), next.skipped);
    hide Owed, Mark;
  }

  lemma {:induction false} ReturningIsRepeated(w: World, k: nat) returns (more: seq<Step>)
    requires Returning(w, k)
    ensures Calm(more) && !Complete(RunFrom(w, more))
    decreases k - w.connection.value.next
  {
    if w.connection.value.next == k {
      more := [Broadcast];
      ReturningRepeats(w, k);
      RunOne(w, Broadcast);
    } else {
      ReturningBroadcast(w, k);
      hide Returning, Next, Complete;
      var rest := ReturningIsRepeated(Next(w, Broadcast), k);
      more := [Broadcast] + rest;
      RunConcat(w, [Broadcast], rest);
      RunOne(w, Broadcast);
    }
  }

  /** A live client drops the session and subscribes again while nothing is stored. */
  function Resubscribed(w: World): World {
    Next(Next(Next(Next(w, Leave(true)), Unsubscribe), Subscribe), Page(1))
  }

  lemma ResubscribedState(w: World)
    requires w.client.subscription.Live? && w.client.known && w.client.highWater == 0 && w.connection.Some?
    requires Rows(w) == []
    ensures var next := Resubscribed(w);
            && next.client == w.client && next.log == w.log
            && next.connection == Some(Connection(true, 0, w.connection.value.next, false))
  {
    var idle := Next(Next(w, Leave(true)), Unsubscribe);
    assert idle.connection == Some(Connection(false, 0, w.connection.value.next, false));
    var asked := Next(idle, Subscribe);
    assert Rows(asked) == [];
    ReplayNothing(asked);
    hide Rows, Ids, IdsIn;
  }

  lemma ResubscribeIsSafe(w: World)
    requires w.client.subscription.Live?
    ensures SafeRun(w, [Leave(true)] + [Unsubscribe] + [Subscribe] + [Page(1)])
    ensures RunFrom(w, [Leave(true)] + [Unsubscribe] + [Subscribe] + [Page(1)]) == Resubscribed(w)
  {
    RunOne(w, Leave(true));
    assert SafeRun(w, [Leave(true)]) by { assert [Leave(true)][..0] == []; }
    hide Next, SafeRun, RunFrom;
    SafeSnoc(w, [Leave(true)], Unsubscribe);
    SafeSnoc(w, [Leave(true)] + [Unsubscribe], Subscribe);
    SafeSnoc(w, [Leave(true)] + [Unsubscribe] + [Subscribe], Page(1));
  }

  /** Whatever the client was doing, it ends up live, with what it had collected handled. */
  lemma GoesLive(w: World)
    requires SubscriptionOk(w) && Ascending(w.log) && w.connection.Some?
    requires w.client.known && w.client.highWater == 0 && Rows(w) == []
    ensures var live := Next(Next(Next(w, Subscribe), Unsubscribe), Page(1));
            && live.client.subscription.Live? && live.client.known && live.log == w.log && live.cleared == w.cleared
            && live.connection.Some? && live.connection.value.next == w.connection.value.next
            && w.client.handled <= live.client.handled
            && (w.client.subscription.Replaying? ==>
                  forall e | e in w.client.subscription.replayed && e.id > 0 :: e in live.client.handled)
  {
    var asked := Next(Next(w, Subscribe), Unsubscribe);
    if w.client.subscription.Idle? {
      assert Rows(asked) == [];
      ReplayNothing(asked);
      hide Rows, IdsIn;
    } else if w.client.subscription.Replaying? {
      GoesLiveFromReplay(w);
    }
  }

  lemma LastEmptyPage(w: World)
    requires w.connection.Some? && w.client.subscription.Replaying? && Rows(w) == [] && !w.connection.value.leaving
    ensures var Replaying(cursor, replayed, buffer) := w.client.subscription;
            var live := Next(w, Page(1));
            && live.client == HandleAll(w.client.(subscription := Live), Merge(replayed, buffer))
            && live.log == w.log && live.cleared == w.cleared
            && live.connection.Some? && live.connection.value.next == w.connection.value.next
  {
    var Replaying(cursor, replayed, buffer) := w.client.subscription;
    var nothing: seq<Event> := [];
    assert After(nothing, OrZero(cursor)) == nothing;
    assert replayed + nothing == replayed;
    hide Merge, HandleAll, Rows, Ids, Passed;
  }

  lemma CollectedHandled(client: Client, log: seq<Event>, replayed: seq<Event>, buffer: seq<Event>)
    requires client.highWater == 0 && Ascending(log) && Ascending(replayed) && Ascending(buffer)
    requires Logged(replayed, log) && Logged(buffer, log)
    ensures var done := HandleAll(client, Merge(replayed, buffer));
            && client.handled <= done.handled && done.subscription == client.subscription && (client.known ==> done.known)
            && forall e | e in replayed && e.id > 0 :: e in done.handled
  {
    var merged := Merge(replayed, buffer);
    AscendingIsOrdered(replayed);
    AscendingIsOrdered(buffer);
    MergeFacts(replayed, buffer);
    assert forall e | e in merged :: e in log;
    OneOfEach(merged, log);
    hide Merge, HandleAll, Ascending;
    AllHandled(client, merged);
    HandleAllKeeps(client, merged);
  }

  lemma GoesLiveFromReplay(w: World)
    requires SubscriptionOk(w) && Ascending(w.log) && w.connection.Some?
    requires w.client.known && w.client.highWater == 0 && Rows(w) == []
    requires w.client.subscription.Replaying?
    ensures var live := Next(Next(Next(w, Subscribe), Unsubscribe), Page(1));
            && live.client.subscription.Live? && live.client.known && live.log == w.log && live.cleared == w.cleared
            && live.connection.Some? && live.connection.value.next == w.connection.value.next
            && w.client.handled <= live.client.handled
            && forall e | e in w.client.subscription.replayed && e.id > 0 :: e in live.client.handled
  {
    var Replaying(cursor, replayed, buffer) := w.client.subscription;
    var asked := Next(Next(w, Subscribe), Unsubscribe);
    assert asked.client == w.client && asked.log == w.log && asked.cleared == w.cleared && Rows(asked) == [];
    assert asked.connection.Some? && !asked.connection.value.leaving;
    assert asked.connection.value.next == w.connection.value.next;
    assert cursor.None? ==> replayed == [];
    hide Next, Merge, HandleAll, Rows, IsOwed;
    LastEmptyPage(asked);
    CollectedHandled(w.client.(subscription := Live), w.log, replayed, buffer);
  }

  function OrZero(cursor: Option<nat>): nat { if cursor.Some? then cursor.value else 0 }

  ghost predicate OneEventPerId(events: seq<Event>) {
    forall i, j | 0 <= i < |events| && 0 <= j < |events| && events[i].id == events[j].id :: events[i] == events[j]
  }

  lemma OneOfEach(events: seq<Event>, log: seq<Event>)
    requires Ascending(log) && forall e | e in events :: e in log
    ensures OneEventPerId(events)
  {
    forall i, j | 0 <= i < |events| && 0 <= j < |events| && events[i].id == events[j].id
      ensures events[i] == events[j]
    {
      assert events[i] in log && events[j] in log;
    }
  }

  /** Ordered events above the fence are all handled. */
  lemma {:induction false} AllHandled(client: Client, events: seq<Event>)
    requires NonDecreasing(events) && OneEventPerId(events)
    ensures var done := HandleAll(client, events);
            && client.handled <= done.handled
            && forall e | e in events && e.id > client.highWater :: e in done.handled
    decreases |events|
  {
    if events != [] {
      var next := Handle(client, events[0]);
      AllHandled(next, events[1..]);
      var done := HandleAll(next, events[1..]);
      assert events == [events[0]] + events[1..];
      if events[0].id > client.highWater {
        assert done.handled[|client.handled|] == events[0];
      }
      forall e | e in events && e.id > client.highWater
        ensures e in done.handled
      {
        if e.id > next.highWater {
          assert e in events[1..];
        } else {
          var i :| 0 <= i < |events| && events[i] == e;
          assert events[0] == events[i];
        }
      }
    }
  }

  /** The stored events were cleared, the fence written to 0, and the client went live. */
  function ClearedGoneLive(w: World): World {
    Next(Next(Next(Next(Next(w, ClearLog), SetFence(0)), Subscribe), Unsubscribe), Page(1))
  }

  /** An event the client has and the connection has not looked at. */
  ghost predicate Unseen(w: World, k: nat) {
    && k < |w.log| && w.connection.Some? && w.connection.value.next <= k
    && (w.log[k] in w.client.handled ||
        (w.client.subscription.Replaying? && w.log[k] in w.client.subscription.replayed))
  }

  lemma IndexBeyond(log: seq<Event>, next: nat, e: Event) returns (k: nat)
    requires Ascending(log) && next <= |log| && e in log && e.id > PassedId(log, next)
    ensures next <= k < |log| && log[k] == e
  {
    assert forall i | 0 <= i < next :: log[i].id <= PassedId(log, next);
    k :| 0 <= k < |log| && log[k] == e;
  }

  lemma FindUnseen(w: World) returns (k: nat)
    requires Invariant(w) && !AllLookedAt(w)
    ensures Unseen(w, k)
  {
    DoneBelow(w);
    var next := w.connection.value.next;
    var passed := PassedId(w.log, next);
    hide Owed, Ids, PassedId, Complete, NothingReturns, IsOwed;
    if i :| 0 <= i < |w.client.handled| && w.client.handled[i].id > passed {
      assert w.client.handled[i] in w.client.handled && w.client.handled[i] in w.log;
      k := IndexBeyond(w.log, next, w.client.handled[i]);
    } else {
      var replayed := w.client.subscription.replayed;
      var i :| 0 <= i < |replayed| && replayed[i].id > passed;
      assert replayed[i] in replayed && replayed[i] in w.log;
      k := IndexBeyond(w.log, next, replayed[i]);
    }
  }

  lemma GoneLive(w: World, k: nat)
    requires Invariant(w) && NothingOwed(w) && Unseen(w, k)
    ensures var live := ClearedGoneLive(w);
            && live.client.subscription.Live? && live.client.known && live.log == w.log && live.cleared == |w.log|
            && live.connection.Some? && live.connection.value.next == w.connection.value.next
            && w.log[k] in live.client.handled
  {
    var cleared := Next(w, ClearLog);
    ClearStep(w);
    SetFenceStep(cleared, 0);
    var written := Next(cleared, SetFence(0));
    assert written.client == OnSwitch(w.client, 0) && written.connection == w.connection && written.log == w.log;
    assert Rows(written) == [] && written.cleared == |w.log|;
    hide Next, Owed, Rows;
    GoesLive(written);
    assert w.log[k] in w.client.handled ==> w.log[k] in ClearedGoneLive(w).client.handled;
  }

  function ReturnSteps(): seq<Step> { [SetFence(0)] + [Subscribe] + [Unsubscribe] + [Page(1)] + [SetFence(0)] }

  lemma ReturnStepsSafe(w: World)
    requires w.cleared == |w.log|
    requires var live := Next(Next(Next(Next(w, SetFence(0)), Subscribe), Unsubscribe), Page(1)); live.cleared == |live.log|
    ensures SafeRun(w, ReturnSteps())
    ensures RunFrom(w, ReturnSteps()) ==
            Next(Next(Next(Next(Next(w, SetFence(0)), Subscribe), Unsubscribe), Page(1)), SetFence(0))
  {
    RunOne(w, SetFence(0));
    assert SafeRun(w, [SetFence(0)]) by { assert [SetFence(0)][..0] == []; }
    hide Next, SafeRun, RunFrom;
    SafeSnoc(w, [SetFence(0)], Subscribe);
    SafeSnoc(w, [SetFence(0)] + [Subscribe], Unsubscribe);
    SafeSnoc(w, [SetFence(0)] + [Subscribe] + [Unsubscribe], Page(1));
    SafeSnoc(w, [SetFence(0)] + [Subscribe] + [Unsubscribe] + [Page(1)], SetFence(0));
  }

  /** Clearing an event that the client has and that is still to be broadcast: after a fence
      write and a new subscription it is handled a second time. */
  lemma ClearRepeats(w: World) returns (more: seq<Step>)
    requires Invariant(w) && NothingOwed(w) && !AllLookedAt(w)
    ensures SafeRun(Next(w, ClearLog), more) && !Complete(RunFrom(Next(w, ClearLog), more))
  {
    var k := FindUnseen(w);
    var cleared := Next(w, ClearLog);
    var live := ClearedGoneLive(w);
    GoneLive(w, k);
    var low := Next(live, SetFence(0));
    assert w.log[k].id > 0 && Ascending(w.log);
    assert low.client == OnSwitch(live.client, 0) && low.connection == live.connection && low.log == w.log && Rows(low) == [];
    assert cleared.cleared == |cleared.log|;
    hide Next, Rows, Invariant, Complete, Unseen;
    ReturnStepsSafe(cleared);
    ResubscribedState(low);
    ResubscribeIsSafe(low);
    var again := [Leave(true)] + [Unsubscribe] + [Subscribe] + [Page(1)];
    var back := Resubscribed(low);
    assert Returning(back, k);
    var pushes := ReturningIsRepeated(back, k);
    CalmIsSafe(back, pushes);
    hide Returning, SafeRun, RunFrom, Ascending;
    SafeConcat(cleared, ReturnSteps(), again);
    RunConcat(cleared, ReturnSteps(), again);
    SafeConcat(cleared, ReturnSteps() + again, pushes);
    RunConcat(cleared, ReturnSteps() + again, pushes);
    more := ReturnSteps() + again + pushes;
  }

  // ---------- A fence written too low ----------

  /** Events above the fence, in order, are all handled. */
  lemma {:induction false} HandleAscending(client: Client, events: seq<Event>)
    requires Ascending(events) && forall i | 0 <= i < |events| :: events[i].id > client.highWater
    ensures HandleAll(client, events).handled == client.handled + events
    decreases |events|
  {
    if events != [] {
      HandleAscending(Handle(client, events[0]), events[1..]);
      assert client.handled + events == client.handled + [events[0]] + events[1..];
    }
  }

  lemma {:induction false} CountOnce(events: seq<Event>, e: Event)
    requires Ascending(events)
    ensures multiset(events)[e] == if e in events then 1 else 0
  {
    if events != [] {
      var n := |events| - 1;
      CountOnce(events[..n], e);
      assert events == events[..n] + [events[n]];
    }
  }

  /** The world once the connection of `w` was replaced and the whole replay came in one page. */
  function Reconnected(w: World): World {
    Next(Next(Next(Next(w, Disconnect), Connect(|w.log|)), Subscribe), Page(|w.log| + 1))
  }

  lemma AskedAgain(w: World)
    requires w.client.known && w.cleared <= |w.log|
    ensures var asked := Next(Next(Next(w, Disconnect), Connect(|w.log|)), Subscribe);
            && asked.client == w.client.(subscription := Replaying(Some(w.client.highWater), [], []))
            && asked.connection == Some(Connection(false, 0, |w.log|, false))
            && asked.log == w.log && asked.cleared == w.cleared
  {
    hide IdsIn;
  }

  lemma WholePage(w: World, cursor: nat, limit: nat)
    requires w.client.subscription == Replaying(Some(cursor), [], []) && w.connection.Some? && !w.connection.value.leaving
    requires Ascending(Rows(w)) && |After(Rows(w), cursor)| <= limit && limit > 0
    ensures Next(w, Page(limit)).client == HandleAll(w.client.(subscription := Live), After(Rows(w), cursor))
  {
    var rest := After(Rows(w), cursor);
    var nothing: seq<Event> := [];
    assert nothing + rest == rest;
    MergeNothing(rest);
    ServeLast(w.connection.value, Rows(w), cursor, limit);
    hide After, Rows, Merge, HandleAll, Ids, Serve, Ascending;
  }

  lemma RestIsShort(rows: seq<Event>, cursor: nat)
    requires Ascending(rows)
    ensures |After(rows, cursor)| <= |rows|
  {
    var k := AfterSuffix(rows, cursor);
  }

  lemma WholePageHandles(w: World, limit: nat)
    requires w.client.subscription == Replaying(Some(w.client.highWater), [], [])
    requires w.connection.Some? && !w.connection.value.leaving && Ascending(Rows(w)) && |Rows(w)| < limit
    ensures Next(w, Page(limit)).client.handled == w.client.handled + After(Rows(w), w.client.highWater)
  {
    RestFacts(Rows(w), w.client.highWater);
    RestIsShort(Rows(w), w.client.highWater);
    hide Next, After, HandleAll, Rows;
    WholePage(w, w.client.highWater, limit);
    HandleAscending(w.client.(subscription := Live), After(Rows(w), w.client.highWater));
  }

  lemma ReconnectHandles(w: World)
    requires Ascending(w.log) && w.cleared <= |w.log| && w.client.known
    ensures Reconnected(w).client.handled == w.client.handled + After(Rows(w), w.client.highWater)
  {
    hide Next, After, Ascending, LastId;
    AskedAgain(w);
    TailFacts(w.log, w.cleared);
    WholePageHandles(Next(Next(Next(w, Disconnect), Connect(|w.log|)), Subscribe), |w.log| + 1);
  }

  lemma MergeNothing(events: seq<Event>)
    ensures Merge(events, []) == events
  {
  }

  lemma TwiceIffInBoth(a: seq<Event>, b: seq<Event>, e: Event)
    requires Ascending(a) && Ascending(b)
    ensures multiset(a + b)[e] == 2 <==> e in a && e in b
  {
    CountOnce(a, e);
    CountOnce(b, e);
    assert multiset(a + b) == multiset(a) + multiset(b);
  }

  lemma RewindHandles(w: World, eventId: nat)
    requires Invariant(w) && eventId <= LastId(w.log)
    ensures Reconnected(Next(w, SetFence(eventId))).client.handled == w.client.handled + After(Rows(w), eventId)
  {
    var written := Next(w, SetFence(eventId));
    assert written.client == OnSwitch(w.client, eventId) && Rows(written) == Rows(w) && written.log == w.log;
    assert written.cleared == w.cleared;
    hide Owed, After, Next, Rows, Reconnected, SubscriptionOk, Complete, NothingReturns;
    ReconnectHandles(written);
  }

  /** A fence written by a switch: after the next reconnection exactly the stored events above
      it are handled, so the handled ones among them are handled a second time. */
  lemma RewindRepeats(steps: seq<Step>, eventId: nat)
    requires SafeRun(START, steps) && eventId <= LastId(RunFrom(START, steps).log)
    ensures var w := RunFrom(START, steps);
            var again := Reconnected(Next(w, SetFence(eventId))).client.handled;
            && again == w.client.handled + After(Rows(w), eventId)
            && forall e :: multiset(again)[e] == 2 <==> e in w.client.handled && e in Rows(w) && e.id > eventId
  {
    var w := RunFrom(START, steps);
    RunInvariant(START, steps);
    hide RunFrom, SafeRun, After, Next, Rows, Reconnected;
    RewindHandles(w, eventId);
    RowsFacts(w);
    RestFacts(Rows(w), eventId);
    DoneBelow(w);
    hide Owed, LogOk, SubscriptionOk, Ascending, Complete, NothingReturns;
    var rest := After(Rows(w), eventId);
    var again := Reconnected(Next(w, SetFence(eventId))).client.handled;
    forall e
      ensures multiset(again)[e] == 2 <==> e in w.client.handled && e in Rows(w) && e.id > eventId
    {
      TwiceIffInBoth(w.client.handled, rest, e);
    }
  }

  lemma NoneAboveFence(w: World, eventId: nat)
    requires LogOk(w) && Complete(w)
    ensures eventId >= w.client.highWater ==> NoneStoredAbove(w, eventId)
    ensures NoneStoredAbove(w, eventId) <==> forall e | e in w.client.handled && e in Rows(w) :: e.id <= eventId
  {
    DoneBelow(w);
    StoredAbove(w);
    StoredRows(w);
    hide Owed, Ids, LogOk, Complete, PassedId, Ascending, Rows;
  }

  /** A fence write at or above the fence is always safe; a lower one is safe exactly when the
      reconnection after it handles no event a second time. */
  lemma FenceWriteSafe(steps: seq<Step>, eventId: nat)
    requires SafeRun(START, steps)
    ensures var w := RunFrom(START, steps);
            && (eventId >= w.client.highWater ==> Safe(w, SetFence(eventId)))
            && (eventId <= LastId(w.log) ==>
                  (Safe(w, SetFence(eventId)) <==>
                   forall e :: multiset(Reconnected(Next(w, SetFence(eventId))).client.handled)[e] != 2))
  {
    var w := RunFrom(START, steps);
    hide RunFrom, SafeRun, Safe, LogOk, Complete, NothingReturns, SubscriptionOk, Next, Reconnected, Rows, LastId, NoneStoredAbove;
    SafeRunInvariant(steps);
    NoneAboveFence(w, eventId);
    FenceGuard(w, eventId);
    if eventId <= LastId(w.log) {
      RewindRepeats(steps, eventId);
      NoneTwice(w.client.handled, Rows(w), eventId, Reconnected(Next(w, SetFence(eventId))).client.handled);
    }
  }

  lemma FenceGuard(w: World, eventId: nat)
    ensures Safe(w, SetFence(eventId)) <==> (eventId <= LastId(w.log) ==> NoneStoredAbove(w, eventId))
  {
    hide NoneStoredAbove, LastId;
  }

  lemma NoneTwice(handled: seq<Event>, rows: seq<Event>, eventId: nat, again: seq<Event>)
    requires forall e :: multiset(again)[e] == 2 <==> e in handled && e in rows && e.id > eventId
    ensures (forall e | e in handled && e in rows :: e.id <= eventId) <==> forall e :: multiset(again)[e] != 2
  {
    if e :| multiset(again)[e] == 2 {
      assert e in handled && e in rows && e.id > eventId;
    }
    if e :| e in handled && e in rows && e.id > eventId {
      assert multiset(again)[e] == 2;
    }
  }

  lemma StoredRows(w: World)
    ensures forall i | w.cleared <= i < |w.log| :: w.log[i] in Rows(w)
    ensures forall e | e in Rows(w) :: exists i :: w.cleared <= i < |w.log| && w.log[i] == e
  {
    if w.cleared <= |w.log| {
      assert forall j | 0 <= j < |Rows(w)| :: Rows(w)[j] == w.log[w.cleared + j];
      assert forall i | w.cleared <= i < |w.log| :: Rows(w)[i - w.cleared] == w.log[i];
    }
  }

  lemma RunFour(w: World, a: Step, b: Step, c: Step, d: Step)
    ensures RunFrom(w, [a, b, c, d]) == Next(Next(Next(Next(w, a), b), c), d)
  {
    hide Next;
    RunTwo(w, a, b);
    RunTwo(RunFrom(w, [a, b]), c, d);
    RunConcat(w, [a, b], [c, d]);
    assert [a, b] + [c, d] == [a, b, c, d];
  }

  lemma BothIsNotAscending(a: seq<Event>, b: seq<Event>, e: Event)
    requires e in a && e in b
    ensures !Ascending(a + b)
  {
    var i :| 0 <= i < |a| && a[i] == e;
    var j :| 0 <= j < |b| && b[j] == e;
    assert (a + b)[i] == (a + b)[|a| + j];
  }

  lemma RewoundRepeats(w: World, eventId: nat)
    requires Invariant(w) && eventId <= LastId(w.log) && !NoneStoredAbove(w, eventId)
    ensures !Complete(Reconnected(Next(w, SetFence(eventId))))
  {
    var i :| w.cleared <= i < |w.log| && w.log[i] in w.client.handled && w.log[i].id > eventId;
    RowsFacts(w);
    RestFacts(Rows(w), eventId);
    StoredRows(w);
    BothIsNotAscending(w.client.handled, After(Rows(w), eventId), w.log[i]);
    hide After, Rows, Owed, SubscriptionOk, Complete, NothingReturns, Ascending;
    RewindHandles(w, eventId);
    RepeatedIsIncomplete(Reconnected(Next(w, SetFence(eventId))));
    SameLog(w, eventId);
  }

  lemma SameLog(w: World, eventId: nat)
    ensures Reconnected(Next(w, SetFence(eventId))).log == w.log
  {
    hide Rows, Ids, IdsIn, OnPage, Serve, Passed;
  }

  lemma FenceKeepsLog(w: World, eventId: nat)
    ensures Next(w, SetFence(eventId)).log == w.log
  {
  }

  /** A fence written below a handled event that is still stored: after a reconnection that event
      is handled a second time. */
  lemma RewindLoses(w: World, eventId: nat) returns (more: seq<Step>)
    requires Invariant(w) && !Safe(w, SetFence(eventId))
    ensures Calm(more) && !Complete(RunFrom(Next(w, SetFence(eventId)), more))
  {
    hide Next, Invariant, RunFrom, Complete, NoneStoredAbove, LastId, Safe, Reconnected, Calm;
    more := Reconnection(|w.log|);
    FenceGuard(w, eventId);
    FenceKeepsLog(w, eventId);
    RewoundRepeats(w, eventId);
    ReconnectionRun(Next(w, SetFence(eventId)));
  }

  function Reconnection(n: nat): seq<Step> { [Disconnect, Connect(n), Subscribe, Page(n + 1)] }

  lemma ReconnectionRun(w: World)
    ensures RunFrom(w, Reconnection(|w.log|)) == Reconnected(w) && Calm(Reconnection(|w.log|))
  {
    var n := |w.log|;
    hide Next, RunFrom;
    RunFour(w, Disconnect, Connect(n), Subscribe, Page(n + 1));
  }

  lemma RepeatedIsIncomplete(w: World)
    ensures Ascending(w.log) && !Ascending(w.client.handled) ==> !Complete(w)
  {
    if Ascending(w.log) {
      OwedAscending(w.log, Mark(w), w.skipped);
    }
  }

  lemma UnsafeLoses(w: World, step: Step) returns (more: seq<Step>)
    requires Invariant(w) && !Safe(w, step)
    ensures SafeRun(Next(w, step), more) && !Complete(RunFrom(Next(w, step), more))
  {
    hide Invariant, Next, Complete, RunFrom, SafeRun;
    match step
    case Fail =>
      more := FailLoses(w);
      CalmIsSafe(Next(w, step), more);
    case Leave(tell) =>
      more := LeaveLoses(w, tell);
      CalmIsSafe(Next(w, step), more);
    case ClearLog =>
      if NothingOwed(w) {
        more := ClearRepeats(w);
      } else {
        more := ClearLoses(w);
        CalmIsSafe(Next(w, step), more);
      }
    case SetFence(eventId) =>
      more := RewindLoses(w, eventId);
      CalmIsSafe(Next(w, step), more);
  }

  /** The guards are exact: in every state of a safe run, a step is safe if and only if every
      safe continuation after it keeps the record complete. */
  lemma SafeIff(steps: seq<Step>, step: Step)
    requires SafeRun(START, steps)
    ensures var w := RunFrom(START, steps);
            Safe(w, step) <==>
            forall more :: SafeRun(Next(w, step), more) ==> Complete(RunFrom(Next(w, step), more))
  {
    var w := RunFrom(START, steps);
    RunInvariant(START, steps);
    hide RunFrom, SafeRun, Next, Complete;
    if Safe(w, step) {
      StepInvariant(w, step);
      forall more | SafeRun(Next(w, step), more)
        ensures Complete(RunFrom(Next(w, step), more))
      {
        RunInvariant(Next(w, step), more);
      }
    } else {
      var more := UnsafeLoses(w, step);
    }
  }

  // ---------- A failed replay, seen from the client ----------

  /** Looking at an event passes it. */
  lemma PassedIndex(log: seq<Event>, next: nat, i: nat)
    requires Ascending(log) && next <= |log| && i < |log| && 0 < log[i].id <= PassedId(log, next)
    ensures i < next
  {
  }

  /** Whether a page has arrived since the connection was made. */
  function Heard(steps: seq<Step>): bool {
    if steps == [] then false
    else
      match steps[|steps| - 1]
      case Page(_) => true
      case Disconnect => false
      case _ => Heard(steps[..|steps| - 1])
  }

  lemma UnheardStep(w: World, step: Step)
    requires w.stale == [] && !step.Page? && (w.connection.Some? ==> !w.connection.value.subscribed)
    ensures var next := Next(w, step); next.connection.Some? ==> !next.connection.value.subscribed
  {
    hide Rows, Ids, IdsIn, Covered, Serve;
  }

  lemma {:induction false} UnheardIsUnsubscribed(steps: seq<Step>)
    requires SafeRun(START, steps) && !Heard(steps)
    ensures var w := RunFrom(START, steps); w.connection.Some? ==> !w.connection.value.subscribed
  {
    if steps != [] {
      var n := |steps| - 1;
      SafePrefix(START, steps, n);
      RunInvariant(START, steps[..n]);
      var w := RunFrom(START, steps[..n]);
      NoStale(w);
      hide Invariant, Safe, SafeRun, Next;
      if steps[n].Disconnect? {
        DisconnectedAt(w);
      } else {
        UnheardIsUnsubscribed(steps[..n]);
        UnheardStep(w, steps[n]);
      }
    }
  }

  lemma DisconnectedAt(w: World)
    ensures Next(w, Disconnect).connection.None?
  {
  }

  /** What the client can tell from its own replay: until a page has arrived on the connection,
      a failing replay loses nothing; after that it loses nothing only if a snapshot covers
      everything replayed or buffered above the fence. */
  lemma FailSeenByClient(steps: seq<Step>)
    requires SafeRun(START, steps)
    requires var w := RunFrom(START, steps); w.client.subscription.Replaying? && w.client.subscription.cursor.Some?
    ensures var w := RunFrom(START, steps);
            var Replaying(Some(cursor), replayed, buffer) := w.client.subscription;
            && (!Heard(steps) ==> Safe(w, Fail))
            && (replayed != [] && Safe(w, Fail) ==>
                  forall e | e in replayed + buffer && e.id > w.client.highWater :: e.id in w.skipped)
  {
    var w := RunFrom(START, steps);
    RunInvariant(START, steps);
    if !Heard(steps) {
      UnheardIsUnsubscribed(steps);
    }
    hide RunFrom, SafeRun;
    if Safe(w, Fail) && w.client.subscription.replayed != [] {
      FailNecessary(w);
    }
  }

  lemma FailSufficient(w: World)
    requires Invariant(w) && w.client.subscription.Replaying? && w.client.subscription.cursor.Some?
    requires var Replaying(Some(cursor), replayed, buffer) := w.client.subscription;
             BelowMark(replayed + buffer + After(Rows(w), cursor), w.client.highWater)
    ensures Safe(w, Fail)
  {
    var Replaying(Some(cursor), replayed, buffer) := w.client.subscription;
    var rest := After(Rows(w), cursor);
    RowsFacts(w);
    RestFacts(Rows(w), cursor);
    hide After, Rows, Owed, Ascending;
    assert forall i | 0 <= i < |w.log| && IsOwed(w, i) :: w.log[i] in replayed + buffer + rest;
    assert forall e | e in replayed + buffer + rest :: e.id <= w.client.highWater;
  }

  lemma FailNecessary(w: World)
    requires Invariant(w) && w.client.subscription.Replaying? && w.client.subscription.cursor.Some?
    requires w.connection.value.subscribed && NothingMissed(w, w.connection.value)
    ensures var Replaying(Some(cursor), replayed, buffer) := w.client.subscription;
            forall e | e in replayed + buffer && e.id > w.client.highWater :: e.id in w.skipped
  {
    var Replaying(Some(cursor), replayed, buffer) := w.client.subscription;
    DoneBelow(w);
    StoredAbove(w);
    LastIsGreatest(w.client.handled);
    hide Owed, PassedId, Ids, LastId;
    forall e | e in replayed + buffer && e.id > w.client.highWater
      ensures e.id in w.skipped
    {
      assert e in w.log;
      var i :| 0 <= i < |w.log| && w.log[i] == e;
      CollectedIsUnhandled(w, e);
      if i >= w.cleared {
        assert !IsOwed(w, i) by {
          if e in buffer {
            PassedIndex(w.log, w.connection.value.next, i);
          }
        }
      }
    }
  }

  lemma CollectedIsUnhandled(w: World, e: Event)
    requires Invariant(w) && w.connection.Some? && w.client.subscription.Replaying?
    requires e in w.client.subscription.replayed + w.client.subscription.buffer
    ensures e !in w.client.handled
  {
    DoneBelow(w);
    LastIsGreatest(w.client.handled);
    hide Owed, PassedId, Ids, LogOk, Complete, SubscriptionOk;
    assert forall h | h in w.client.handled :: h.id <= LastId(w.client.handled);
  }

  // ---------- One subscription ----------

  predicate NoFences(steps: seq<Step>) {
    forall i | 0 <= i < |steps| :: !steps[i].Raise? && !steps[i].SetFence?
  }

  /** Nothing at position `from` or later and above `cursor` is skipped, or cleared unhandled. */
  ghost predicate Unskipped(w: World, from: nat, cursor: nat) {
    && w.client.known
    && (w.client.subscription.Replaying? ==> w.client.subscription.cursor.Some?)
    && (forall i | from <= i < |w.log| && w.log[i].id > cursor :: w.log[i].id !in w.skipped)
    && (forall i | from <= i < w.cleared && i < |w.log| && w.log[i].id > cursor :: w.log[i].id <= w.client.highWater)
  }

  lemma UnskippedPage(w: World, limit: nat, from: nat, cursor: nat)
    requires Unskipped(w, from, cursor)
    ensures Unskipped(Next(w, Page(limit)), from, cursor)
  {
    if CanPage(w, limit) {
      var Replaying(Some(c), replayed, buffer) := w.client.subscription;
      var reply := Serve(w.connection.value, Rows(w), Some(c), limit);
      HandleAllKeeps(w.client.(subscription := Live), Merge(replayed + reply.page, buffer));
      hide Rows, After, HandleAll, Merge, Ids;
    }
  }

  lemma UnskippedClear(w: World, from: nat, cursor: nat)
    requires Unskipped(w, from, cursor) && NothingOwed(w)
    ensures Unskipped(Next(w, ClearLog), from, cursor)
  {
    forall i | from <= i < |w.log| && w.log[i].id > cursor
      ensures w.log[i].id <= w.client.highWater
    {
      assert !IsOwed(w, i);
    }
  }

  lemma UnskippedMoves(w: World, step: Step, from: nat, cursor: nat)
    requires w.stale == [] && Unskipped(w, from, cursor) && w.cleared <= |w.log|
    requires !step.Page? && !step.ClearLog? && !step.Append? && !step.Raise? && !step.SetFence?
    ensures Unskipped(Next(w, step), from, cursor) && Next(w, step).log == w.log
  {
    hide Rows, After, HandleAll, Merge, Ids, IdsIn, Serve;
  }

  lemma UnskippedAppend(w: World, event: Event, from: nat, cursor: nat)
    requires LogOk(w) && Unskipped(w, from, cursor)
    ensures Unskipped(Next(w, Append(event)), from, cursor) && w.log <= Next(w, Append(event)).log
  {
    hide Ascending, LastId;
  }

  lemma UnskippedStep(w: World, step: Step, from: nat, cursor: nat)
    requires Invariant(w) && Safe(w, step) && Unskipped(w, from, cursor) && !step.Raise? && !step.SetFence?
    ensures Unskipped(Next(w, step), from, cursor) && w.log <= Next(w, step).log
  {
    assert w.stale == [] && LogOk(w);
    hide Invariant, Unskipped, AllLookedAt, NothingMissed, Serve, OnPage;
    if step.Page? {
      UnskippedPage(w, step.limit, from, cursor);
    } else if step.ClearLog? {
      UnskippedClear(w, from, cursor);
    } else if step.Append? {
      UnskippedAppend(w, step.event, from, cursor);
    } else {
      UnskippedMoves(w, step, from, cursor);
    }
  }

  lemma {:induction false} UnskippedRun(w: World, steps: seq<Step>, from: nat, cursor: nat)
    requires Invariant(w) && Unskipped(w, from, cursor) && SafeRun(w, steps) && NoFences(steps)
    ensures Unskipped(RunFrom(w, steps), from, cursor) && w.log <= RunFrom(w, steps).log
  {
    if steps != [] {
      var n := |steps| - 1;
      SafePrefix(w, steps, n);
      hide Next, Invariant, Unskipped, SafeRun;
      RunInvariant(w, steps[..n]);
      UnskippedRun(w, steps[..n], from, cursor);
      UnskippedStep(RunFrom(w, steps[..n]), steps[n], from, cursor);
    }
  }

  lemma SubscribeUnskips(w: World)
    requires Invariant(w) && w.client.known && w.client.subscription.Idle? && w.connection.Some?
    ensures Unskipped(Next(w, Subscribe), w.cleared, w.client.highWater)
  {
    var next := Next(w, Subscribe);
    LastIsGreatest(w.log);
    forall i | w.cleared <= i < |w.log| && w.log[i].id > w.client.highWater
      ensures w.log[i].id !in next.skipped
    {
      assert Rows(w)[i - w.cleared] == w.log[i];
      assert w.log[i].id in IdsIn(Rows(w), w.client.highWater, LastId(w.log));
    }
  }

  lemma UnskippedMeans(w: World, from: nat, cursor: nat)
    requires Invariant(w) && Unskipped(w, from, cursor)
    ensures Ascending(w.client.handled)
    ensures forall i | from <= i < |w.log| && w.log[i].id > cursor ::
              w.log[i] in w.client.handled <==> w.log[i].id <= w.client.highWater
    ensures CaughtUp(w) ==> forall i | from <= i < |w.log| && w.log[i].id > cursor :: w.log[i] in w.client.handled
  {
    DoneBelow(w);
    StoredAbove(w);
    hide Owed, LogOk, Complete, NothingReturns, Ids, Ascending, PassedId;
    if CaughtUp(w) {
      assert forall i | 0 <= i < |w.log| :: !IsOwed(w, i);
    }
  }

  /** Subscribing with a cursor: of the events stored then or logged later, exactly those above
      the cursor are handled, each once and in order, across every page, push, departure,
      failure and reconnection of a safe run; all of them once caught up. */
  lemma OneSubscription(w: World, steps: seq<Step>)
    requires Invariant(w) && w.client.known && w.client.subscription.Idle? && w.connection.Some?
    requires SafeRun(Next(w, Subscribe), steps) && NoFences(steps)
    ensures var cursor := w.client.highWater;
            var end := RunFrom(Next(w, Subscribe), steps);
            && Ascending(end.client.handled) && w.log <= end.log
            && (forall i | w.cleared <= i < |end.log| && end.log[i].id > cursor ::
                  end.log[i] in end.client.handled <==> end.log[i].id <= end.client.highWater)
            && (CaughtUp(end) ==>
                  forall i | w.cleared <= i < |end.log| && end.log[i].id > cursor :: end.log[i] in end.client.handled)
  {
    var start := Next(w, Subscribe);
    SubscribeStep(w);
    SubscribeNews(w);
    SubscribeUnskips(w);
    assert start.log == w.log;
    hide Next, SafeRun, RunFrom, Unskipped, Sound, NothingReturns;
    RunInvariant(start, steps);
    UnskippedRun(start, steps, w.cleared, w.client.highWater);
    UnskippedMeans(RunFrom(start, steps), w.cleared, w.client.highWater);
  }

  // ---------- Two concrete runs ----------

  const SNAPSHOT: seq<Step> := [Append(Event(1, 0)), Raise(1)]
  const SUBSCRIBE: seq<Step> := [Connect(1), Subscribe]
  const GROWTH: seq<Step> := [Append(Event(2, 0)), Append(Event(3, 0))]
  const ABANDON: seq<Step> := [Page(1), Leave(false)]
  const PUSHES: seq<Step> := [Broadcast, Broadcast]

  const KNOWN: World := World(Client(true, 1, [], Idle), None, [Event(1, 0)], 0, [], {1})
  const READY: World :=
    World(Client(true, 1, [], Replaying(Some(1), [], [])), Some(Connection(false, 0, 1, false)), [Event(1, 0)], 0, [], {1})
  const GROWN: World := READY.(log := [Event(1, 0), Event(2, 0), Event(3, 0)])
  const ABANDONED: World :=
    World(Client(true, 1, [], Idle), Some(Connection(true, 2, 1, false)), GROWN.log, 0, [Some(2)], {1})

  lemma SnapshotRun()
    ensures RunFrom(START, SNAPSHOT) == KNOWN
  {
    RunTwo(START, SNAPSHOT[0], SNAPSHOT[1]);
    hide RunFrom;
    assert IdsIn([Event(1, 0)], 0, 1) == {1};
  }

  lemma SubscribeRun()
    ensures RunFrom(KNOWN, SUBSCRIBE) == READY
  {
    RunTwo(KNOWN, SUBSCRIBE[0], SUBSCRIBE[1]);
    hide RunFrom;
    assert IdsIn(Rows(KNOWN), 1, 1) == {};
  }

  lemma GrowthRun()
    ensures RunFrom(READY, GROWTH) == GROWN
  {
    RunTwo(READY, GROWTH[0], GROWTH[1]);
    hide RunFrom;
  }

  lemma AbandonRun()
    ensures RunFrom(GROWN, ABANDON) == ABANDONED
  {
    RunTwo(GROWN, Page(1), Leave(false));
    assert Rows(GROWN) == GROWN.log;
    var k := AfterSuffix(GROWN.log, 1);
    assert After(GROWN.log, 1) == [Event(2, 0), Event(3, 0)];
    hide RunFrom, After;
    ServeMore(GROWN.connection.value, GROWN.log, 1, 1);
    assert Ids([]) == {};
    hide Rows, Serve;
    assert [Event(2, 0), Event(3, 0)][..1] == [Event(2, 0)];
  }

  lemma PushesRun()
    ensures var end := RunFrom(ABANDONED, PUSHES);
            end.client.handled == [Event(3, 0)] && end.client.highWater == 3 && end.log == GROWN.log && 2 !in end.skipped
  {
    RunTwo(ABANDONED, Broadcast, Broadcast);
    hide RunFrom;
  }

  /** A client that leaves after the first page of its replay: the next push is handled
      directly and the event of that page, logged above the cursor, never is. */
  lemma LeaveLosesAnEvent()
    ensures var end := RunFrom(START, SNAPSHOT + SUBSCRIBE + GROWTH + ABANDON + PUSHES);
            && end.client.handled == [Event(3, 0)] && end.client.highWater == 3
            && Event(2, 0) in end.log && 2 !in end.skipped
  {
    hide RunFrom;
    PushesRun();
    assert GROWN.log[1] == Event(2, 0);
    RunConcat(START, SNAPSHOT + SUBSCRIBE + GROWTH + ABANDON, PUSHES);
    RunConcat(START, SNAPSHOT + SUBSCRIBE + GROWTH, ABANDON);
    RunConcat(START, SNAPSHOT + SUBSCRIBE, GROWTH);
    RunConcat(START, SNAPSHOT, SUBSCRIBE);
    SnapshotRun();
    SubscribeRun();
    GrowthRun();
    AbandonRun();
  }

  const GOES_LIVE: seq<Step> := [Page(1), Append(Event(2, 0))]

  const LIVE: World :=
    World(Client(true, 1, [], Live), Some(Connection(true, 1, 1, false)), [Event(1, 0), Event(2, 0)], 0, [], {1})

  lemma LiveRun()
    ensures RunFrom(READY, GOES_LIVE) == LIVE
    ensures Next(LIVE, Broadcast).client.handled == [Event(2, 0)] && Next(LIVE, Broadcast).log == LIVE.log
    ensures Next(LIVE, Broadcast).cleared == 0
  {
    RunTwo(READY, GOES_LIVE[0], GOES_LIVE[1]);
    assert Rows(READY) == [Event(1, 0)];
    var k := AfterSuffix([Event(1, 0)], 1);
    assert After([Event(1, 0)], 1) == [];
    var nothing: seq<Event> := [];
    assert nothing + nothing == nothing && Merge(nothing, nothing) == nothing;
    assert Ids([]) == {};
    hide RunFrom, After, Rows;
  }

  const HANDLED_TWO: seq<Step> := SNAPSHOT + SUBSCRIBE + GOES_LIVE + [Broadcast]

  lemma HandledTwoRun()
    ensures RunFrom(START, HANDLED_TWO) == Next(LIVE, Broadcast)
  {
    hide RunFrom, Next;
    RunSnoc(START, SNAPSHOT + SUBSCRIBE + GOES_LIVE, Broadcast);
    RunConcat(START, SNAPSHOT + SUBSCRIBE, GOES_LIVE);
    RunConcat(START, SNAPSHOT, SUBSCRIBE);
    SnapshotRun();
    SubscribeRun();
    LiveRun();
  }

  lemma StoredAboveOne()
    ensures var w := Next(LIVE, Broadcast); After(Rows(w), 1) == [Event(2, 0)] && LastId(w.log) == 2
  {
    LiveRun();
    hide Next;
    assert Rows(Next(LIVE, Broadcast)) == LIVE.log;
    var k := AfterSuffix(LIVE.log, 1);
  }

  /** A switch that writes the fence back to 1 after event 2 was handled: the reconnected client
      handles event 2 again. */
  lemma SwitchRepeatsAnEvent()
    ensures var w := RunFrom(START, HANDLED_TWO);
            && w.client.handled == [Event(2, 0)]
            && Reconnected(Next(w, SetFence(1))).client.handled == [Event(2, 0), Event(2, 0)]
  {
    hide RunFrom, Reconnected, After, Next, SafeRun, Rows, LastId;
    HandledTwoRun();
    LiveRun();
    StoredAboveOne();
    CalmIsSafe(START, HANDLED_TWO);
    RewindRepeats(HANDLED_TWO, 1);
  }
}
