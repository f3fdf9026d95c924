/** The event stream gets through: replays end, a reconnected client catches up, and the
    only events it ever skips are those a snapshot or a switch stands for, or those logged
    before a session that was not known yet was first subscribed to. */
module EventProgress {
  import opened CodeUnits
  import opened EventReplay

  // ---------- Skipped events ----------

  /** The step may let the client skip the event: a snapshot or a switch at or above it, or the
      page of a subscription without a cursor, which starts after what is logged by then. */
  ghost predicate Excuses(w: World, step: Step, id: nat) {
    || ((step.Raise? || step.SetFence?) && id <= step.eventId)
    || (step.Page? && w.client.subscription.Replaying? && w.client.subscription.cursor.None? && id in Ids(w.log))
  }

  lemma SkipsOnly(w: World, step: Step)
    ensures forall id | id in Next(w, step).skipped && id !in w.skipped :: Excuses(w, step, id)
  {
    hide Serve, OnPage, OnPush, HandleAll;
  }

  lemma {:induction false} SkippedBecause(steps: seq<Step>, id: nat) returns (k: nat)
    requires id in RunFrom(START, steps).skipped
    ensures k < |steps| && Excuses(RunFrom(START, steps[..k]), steps[k], id)
  {
    var n := |steps| - 1;
    var before := RunFrom(START, steps[..n]);
    SkipsOnly(before, steps[n]);
    hide Next, Excuses;
    if id in before.skipped {
      k := SkippedBecause(steps[..n], id);
      assert steps[..n][..k] == steps[..k];
    } else {
      k := n;
    }
  }

  /** In every safe run, an event that is at or below the fence or cleared and was excused by
      no step has been handled. */
  lemma UnexcusedIsHandled(steps: seq<Step>, i: nat)
    requires SafeRun(START, steps)
    requires var w := RunFrom(START, steps);
             i < |w.log| && (i < w.cleared || w.log[i].id <= w.client.highWater || CaughtUp(w))
    requires forall k | 0 <= k < |steps| :: !Excuses(RunFrom(START, steps[..k]), steps[k], RunFrom(START, steps).log[i].id)
    ensures RunFrom(START, steps).log[i] in RunFrom(START, steps).client.handled
  {
    var w := RunFrom(START, steps);
    HandledExactly(steps);
    hide RunFrom, SafeRun, Excuses, Ascending, Logged;
    if w.log[i].id in w.skipped {
      var k := SkippedBecause(steps, w.log[i].id);
      assert false;
    }
  }

  // ---------- Replays end ----------

  /** The events a replay has still to fetch. */
  function Rest(w: World): seq<Event> {
    match w.client.subscription
    case Replaying(Some(cursor), _, _) => After(Rows(w), cursor)
    case _ => []
  }

  /** A page brings the replay forward by its events, or ends it. */
  lemma PageAdvances(w: World, limit: nat)
    requires CanPage(w, limit) && Ascending(Rows(w))
    ensures var next := Next(w, Page(limit));
            || next.client.subscription.Live?
            || (CanPage(next, limit) && Rows(next) == Rows(w) && |Rest(next)| == |Rest(w)| - limit)
  {
    hide Next, Rest, Rows, Ascending;
    if w.client.subscription.cursor.None? {
      FirstReply(w, limit);
    } else if |Rest(w)| <= limit {
      WholeReply(w, limit);
    } else {
      GoesOn(w, limit);
    }
  }

  lemma FirstReply(w: World, limit: nat)
    requires CanPage(w, limit) && w.client.subscription.cursor.None?
    ensures Next(w, Page(limit)).client.subscription.Live?
  {
    hide Merge, HandleAll;
    LiveAfterAll(w.client.(subscription := Live), Merge(w.client.subscription.replayed + [], w.client.subscription.buffer));
  }

  lemma GoesOn(w: World, limit: nat)
    requires CanPage(w, limit) && Ascending(Rows(w)) && w.client.subscription.cursor.Some? && |Rest(w)| > limit
    ensures var next := Next(w, Page(limit));
            CanPage(next, limit) && Rows(next) == Rows(w) && |Rest(next)| == |Rest(w)| - limit
  {
    SomeReply(w, limit);
    hide HandleAll, Merge, After, Ascending;
    assert Rest(w)[..limit][limit - 1] == Rest(w)[limit - 1];
  }

  lemma SomeReply(w: World, limit: nat)
    requires CanPage(w, limit) && Ascending(Rows(w)) && w.client.subscription.cursor.Some? && |Rest(w)| > limit
    ensures After(Rows(w), Rest(w)[limit - 1].id) == Rest(w)[limit..]
  {
    var rows, rest := Rows(w), Rest(w);
    var k := AfterSuffix(rows, w.client.subscription.cursor.value);
    var j := AfterSuffix(rows, rest[limit - 1].id);
    hide After;
    assert forall i | 0 <= i < |rest| :: rest[i] == rows[k + i];
    assert rows[k + limit - 1].id == rest[limit - 1].id;
    assert k + limit - 1 < j;
    assert j <= k + limit by {
      assert rows[k + limit].id > rows[k + limit - 1].id;
    }
    assert rest[limit..] == rows[k + limit..];
  }

  function Pages(n: nat, limit: nat): seq<Step> { seq(n, i => Page(limit)) }

  /** A replay that is let to go on ends after at most one page more than it has events left,
      whatever the page size. */
  lemma {:induction false} ReplayEnds(w: World, limit: nat) returns (n: nat)
    requires CanPage(w, limit) && Ascending(Rows(w))
    ensures n <= |Rest(w)| + 1 && RunFrom(w, Pages(n, limit)).client.subscription.Live?
    decreases |Rest(w)|
  {
    var next := Next(w, Page(limit));
    PageAdvances(w, limit);
    RunOne(w, Page(limit));
    assert Pages(1, limit) == [Page(limit)];
    hide Next, CanPage, Rest, RunFrom, Rows, Ascending;
    if next.client.subscription.Live? {
      n := 1;
    } else {
      var more := ReplayEnds(next, limit);
      n := more + 1;
      assert Pages(n, limit) == [Page(limit)] + Pages(more, limit);
      RunConcat(w, [Page(limit)], Pages(more, limit));
    }
  }

  // ---------- Catching up ----------

  lemma AskedFirst(w: World)
    requires !w.client.known && w.cleared <= |w.log|
    ensures CaughtUp(Reconnected(w)) && Reconnected(w).log == w.log
  {
    hide IdsIn, Passed, Ids;
    assert Merge([] + [], []) == [];
  }

  lemma AskedOnce(w: World)
    requires w.client.known && w.cleared <= |w.log| && Ascending(w.log)
    ensures CaughtUp(Reconnected(w)) && Reconnected(w).log == w.log
  {
    hide Next, After, Ascending, LastId, HandleAll, Merge;
    var asked := Next(Next(Next(w, Disconnect), Connect(|w.log|)), Subscribe);
    AskedAgain(w);
    AfterBound(Rows(asked), w.client.highWater);
    assert |Rest(asked)| <= |w.log|;
    hide Rest, Rows;
    WholeReply(asked, |w.log| + 1);
  }

  lemma {:induction false} AfterBound(rows: seq<Event>, cursor: nat)
    ensures |After(rows, cursor)| <= |rows|
  {
    if rows != [] {
      AfterBound(rows[..|rows| - 1], cursor);
    }
  }

  lemma WholeReply(w: World, limit: nat)
    requires CanPage(w, limit) && w.client.subscription.cursor.Some? && |Rest(w)| <= limit
    ensures var next := Next(w, Page(limit));
            next.client.subscription.Live? && next.log == w.log && next.connection.Some? &&
            next.connection.value.next == w.connection.value.next
  {
    hide After, Merge;
    LiveAfterAll(w.client.(subscription := Live), Merge(w.client.subscription.replayed + Rest(w), w.client.subscription.buffer));
  }

  lemma {:induction false} LiveAfterAll(client: Client, events: seq<Event>)
    ensures HandleAll(client, events).subscription == client.subscription
    decreases |events|
  {
    if events != [] {
      LiveAfterAll(Handle(client, events[0]), events[1..]);
    }
  }

  /** From every state of a safe run, a client that reconnects and is answered has handled every
      logged event that was not skipped. */
  lemma ReconnectedHasAll(steps: seq<Step>)
    requires SafeRun(START, steps)
    ensures var w := RunFrom(START, steps);
            var end := Reconnected(w);
            && CaughtUp(end) && end.log == w.log
            && forall i | 0 <= i < |end.log| :: end.log[i] in end.client.handled <==> end.log[i].id !in end.skipped
  {
    var w := RunFrom(START, steps);
    SafeRunInvariant(steps);
    assert LogOk(w);
    hide RunFrom, SafeRun, Invariant, Reconnected;
    if w.client.known {
      AskedOnce(w);
    } else {
      AskedFirst(w);
    }
    hide CaughtUp;
    ReconnectionRun(w);
    CalmIsSafe(w, Reconnection(|w.log|));
    SafeConcat(START, steps, Reconnection(|w.log|));
    RunConcat(START, steps, Reconnection(|w.log|));
    HandledExactly(steps + Reconnection(|w.log|));
  }

  /** A client that has left and told so hears nothing more once the daemon knows. */
  lemma LeftIsQuiet(w: World)
    requires w.connection.Some? && !w.client.subscription.Idle?
    ensures var left := Next(w, Leave(true));
            left.client.subscription.Idle? && Next(Next(left, Unsubscribe), Broadcast).client == left.client
  {
  }
}
