/** A staged refresh of the selected session: captured, awaited, and committed
    only if the cache object is still the captured one. Cache objects are
    immutable values with identity. */
module RefreshFence {
  import opened CodeUnits

  type Session = int

  datatype Snapshot = Snapshot(sessionRevision: int, queueRevision: int, transcriptRevision: int, lastEventId: int)

  /** The parts of the cache the fence reads, and everything else. */
  datatype Cache = Cache(sessionId: Option<Session>, snapshot: Option<Snapshot>, contents: int)

  datatype CacheObject = CacheObject(ref: nat, cache: Cache)

  datatype Fence = Fence(captured: CacheObject, sessionId: Option<Session>, snapshot: Option<Snapshot>)

  /** `captureSelectedSessionRefresh` */
  function Capture(current: CacheObject): Fence {
    Fence(current, current.cache.sessionId, current.cache.snapshot)
  }

  /** The guard of `commitSelectedSessionRefresh`. */
  predicate MayCommit(fence: Fence, current: CacheObject, staged: Cache) {
    && current.ref == fence.captured.ref
    && current.cache.sessionId == fence.sessionId
    && current.cache.snapshot == fence.snapshot
    && staged.sessionId == fence.sessionId
  }

  /** The replies a refresh waited for, and how it turns a cache and them into the next
      cache; None when the staged cache is not usable. */
  type Response = int
  type Stage = (Cache, Response) -> Option<Cache>

  datatype Refresh =
    | Waiting(fence: Fence, session: Session, version: nat)
    | Staged(fence: Fence, session: Session, version: nat, response: Response, staged: Cache)

  /** A change of the cache, as it happened. */
  datatype Change =
    | Updated(update: Cache -> Cache)
    | Replaced(cache: Cache)
    | Refreshed(refresh: nat, session: Session, version: nat, response: Response)

  /** `heap` remembers every cache object ever made; `refreshes` holds those under way, any
      number of them; `changes` is the history. */
  datatype World = World(
    current: CacheObject,
    heap: map<nat, Cache>,
    nextRef: nat,
    session: Option<Session>,
    version: nat,
    refreshes: map<nat, Refresh>,
    nextRefresh: nat,
    changes: seq<Change>)

  datatype Step =
    | Update(update: Cache -> Cache, same: bool)    // a reducer; a no-op may return its argument
    | Select(selected: Option<Session>, restored: nat)   // restore an earlier cache object
    | OpenNew(openedSession: Session)                         // select a session never cached before
    | Restart                                            // the same session under a new version
    | StartRefresh
    | Respond(refresh: nat, response: Response)
    | Commit(refresh: nat)

  function Put(w: World, cache: Cache): World {
    w.(current := CacheObject(w.nextRef, cache), heap := w.heap[w.nextRef := cache], nextRef := w.nextRef + 1)
  }

  predicate IsCurrent(w: World, session: Session, version: nat) {
    w.session == Some(session) && w.version == version
  }

  function End(w: World, refresh: nat): World { w.(refreshes := w.refreshes - {refresh}) }

  /** The head of the refresh loop: capture, if the session's cache has a snapshot. */
  function BeginRefresh(w: World, refresh: nat, session: Session, version: nat): World {
    if w.current.cache.sessionId == Some(session) && w.current.cache.snapshot.Some?
    then w.(refreshes := w.refreshes[refresh := Waiting(Capture(w.current), session, version)])
    else End(w, refresh)
  }

  /** The awaited replies arrive. */
  function OnRespond(stage: Stage, w: World, refresh: nat, response: Response): World
    requires refresh in w.refreshes && w.refreshes[refresh].Waiting?
  {
    var Waiting(fence, session, version) := w.refreshes[refresh];
    if !IsCurrent(w, session, version) then End(w, refresh)
    else
      match stage(fence.captured.cache, response)
      case None => End(w, refresh)
      case Some(staged) =>
        w.(refreshes := w.refreshes[refresh := Staged(fence, session, version, response, staged)])
  }

  /** The end of the refresh loop: commit, or go round again. */
  function OnCommit(w: World, refresh: nat): World
    requires refresh in w.refreshes && w.refreshes[refresh].Staged?
  {
    var Staged(fence, session, version, response, staged) := w.refreshes[refresh];
    if !IsCurrent(w, session, version) then End(w, refresh)
    else if MayCommit(fence, w.current, staged) then
      End(Put(w, staged), refresh).(changes := w.changes + [Refreshed(refresh, session, version, response)])
    else BeginRefresh(w, refresh, session, version)
  }

  function Next(stage: Stage, w: World, step: Step): World {
    match step
    case Update(update, same) =>
      var cache := update(w.current.cache);
      var w1 := if same && cache == w.current.cache then w else Put(w, cache);
      w1.(changes := w.changes + [Updated(update)])
    case Select(selected, ref) =>
      if ref !in w.heap then w
      else w.(current := CacheObject(ref, w.heap[ref]), session := selected, version := w.version + 1,
              changes := w.changes + [Replaced(w.heap[ref])])
    case OpenNew(newSession) =>
      var cache := Cache(Some(newSession), None, 0);
      Put(w, cache).(session := Some(newSession), version := w.version + 1, changes := w.changes + [Replaced(cache)])
    case Restart => w.(version := w.version + 1)
    case StartRefresh =>
      if w.session.Some?
      then BeginRefresh(w, w.nextRefresh, w.session.value, w.version).(nextRefresh := w.nextRefresh + 1) else w
    case Respond(refresh, response) =>
      if refresh in w.refreshes && w.refreshes[refresh].Waiting? then OnRespond(stage, w, refresh, response) else w
    case Commit(refresh) =>
      if refresh in w.refreshes && w.refreshes[refresh].Staged? then OnCommit(w, refresh) else w
  }

  function Run(stage: Stage, w: World, steps: seq<Step>): World {
    if steps == [] then w else Next(stage, Run(stage, w, steps[..|steps| - 1]), steps[|steps| - 1])
  }

  // ---------- The serial meaning of a history ----------

  function Apply(stage: Stage, cache: Cache, change: Change): Cache {
    match change
    case Updated(update) => update(cache)
    case Replaced(other) => other
    case Refreshed(_, _, _, response) =>
      var staged := stage(cache, response);
      if staged.Some? then staged.value else cache
  }

  /** Every change in order, a refresh being one atomic change. */
  function Replay(stage: Stage, cache: Cache, changes: seq<Change>): Cache {
    if changes == [] then cache
    else Apply(stage, Replay(stage, cache, changes[..|changes| - 1]), changes[|changes| - 1])
  }

  /** What a step by itself adds to the history. */
  function Recorded(w: World, step: Step): seq<Change> {
    match step
    case Update(update, _) => [Updated(update)]
    case Select(_, ref) => if ref in w.heap then [Replaced(w.heap[ref])] else []
    case OpenNew(newSession) => [Replaced(Cache(Some(newSession), None, 0))]
    case _ => []
  }

  ghost predicate ObjectOk(w: World, o: CacheObject) {
    o.ref in w.heap && w.heap[o.ref] == o.cache
  }

  ghost predicate RefreshOk(stage: Stage, w: World, refresh: Refresh) {
    && ObjectOk(w, refresh.fence.captured) && refresh.fence == Capture(refresh.fence.captured)
    && refresh.fence.sessionId == Some(refresh.session) && refresh.version <= w.version
    && (refresh.version == w.version ==> w.session == Some(refresh.session))
    && (refresh.Staged? ==> stage(refresh.fence.captured.cache, refresh.response) == Some(refresh.staged))
  }

  ghost predicate Invariant(stage: Stage, w: World, initial: Cache) {
    && (forall ref | ref in w.heap :: ref < w.nextRef)
    && ObjectOk(w, w.current)
    && w.current.cache == Replay(stage, initial, w.changes)
    && (forall id | id in w.refreshes :: id < w.nextRefresh && RefreshOk(stage, w, w.refreshes[id]))
  }

  lemma ReplaySnoc(stage: Stage, cache: Cache, changes: seq<Change>, change: Change)
    ensures Replay(stage, cache, changes + [change]) == Apply(stage, Replay(stage, cache, changes), change)
  {
    assert (changes + [change])[..|changes|] == changes;
  }

  /** Later heaps and versions leave a refresh in order. */
  ghost predicate Grows(w: World, next: World) {
    && (forall ref | ref in w.heap :: ref in next.heap && next.heap[ref] == w.heap[ref])
    && w.version <= next.version && w.nextRefresh <= next.nextRefresh
    && (w.version == next.version ==> w.session == next.session)
  }

  lemma RefreshStays(stage: Stage, w: World, next: World, refresh: Refresh)
    requires RefreshOk(stage, w, refresh) && Grows(w, next)
    ensures RefreshOk(stage, next, refresh)
  {
  }

  /** All refreshes stay in order when at most one of them is new or changed. */
  lemma RefreshesStay(stage: Stage, w: World, next: World, initial: Cache, changed: nat)
    requires Invariant(stage, w, initial) && Grows(w, next)
    requires forall id | id in next.refreshes && id != changed :: id in w.refreshes && next.refreshes[id] == w.refreshes[id]
    requires changed in next.refreshes ==> changed < next.nextRefresh && RefreshOk(stage, next, next.refreshes[changed])
    ensures forall id | id in next.refreshes :: id < next.nextRefresh && RefreshOk(stage, next, next.refreshes[id])
  {
    forall id | id in next.refreshes && id != changed
      ensures id < next.nextRefresh && RefreshOk(stage, next, next.refreshes[id])
    {
      RefreshStays(stage, w, next, w.refreshes[id]);
    }
  }

  lemma HistoryGrows(stage: Stage, w: World, next: World, initial: Cache, change: Change)
    requires Invariant(stage, w, initial) && next.changes == w.changes + [change]
    requires next.current.cache == Apply(stage, w.current.cache, change)
    ensures next.current.cache == Replay(stage, initial, next.changes)
  {
    ReplaySnoc(stage, initial, w.changes, change);
  }

  lemma CacheStep(stage: Stage, w: World, initial: Cache, step: Step)
    requires Invariant(stage, w, initial) && (step.Update? || step.Select? || step.OpenNew? || step.Restart?)
    ensures Invariant(stage, Next(stage, w, step), initial)
  {
    var next := Next(stage, w, step);
    RefreshesStay(stage, w, next, initial, w.nextRefresh);
    if |next.changes| > |w.changes| {
      HistoryGrows(stage, w, next, initial, next.changes[|w.changes|]);
    }
    hide Replay, RefreshOk;
  }

  lemma BeginKeeps(stage: Stage, w: World, initial: Cache, refresh: nat, session: Session)
    requires Invariant(stage, w, initial) && refresh < w.nextRefresh && w.session == Some(session)
    ensures Invariant(stage, BeginRefresh(w, refresh, session, w.version), initial)
  {
    RefreshesStay(stage, w, BeginRefresh(w, refresh, session, w.version), initial, refresh);
    hide Replay;
  }

  lemma StartStep(stage: Stage, w: World, initial: Cache)
    requires Invariant(stage, w, initial)
    ensures Invariant(stage, Next(stage, w, StartRefresh), initial)
  {
    if w.session.Some? {
      var ready := w.(nextRefresh := w.nextRefresh + 1);
      RefreshesStay(stage, w, ready, initial, w.nextRefresh);
      hide Replay, RefreshOk;
      BeginKeeps(stage, ready, initial, w.nextRefresh, w.session.value);
    }
  }

  lemma RespondStep(stage: Stage, w: World, initial: Cache, refresh: nat, response: Response)
    requires Invariant(stage, w, initial) && refresh in w.refreshes && w.refreshes[refresh].Waiting?
    ensures Invariant(stage, OnRespond(stage, w, refresh, response), initial)
  {
    assert RefreshOk(stage, w, w.refreshes[refresh]);
    RefreshesStay(stage, w, OnRespond(stage, w, refresh, response), initial, refresh);
    hide Replay;
  }

  lemma CommitStep(stage: Stage, w: World, initial: Cache, refresh: nat)
    requires Invariant(stage, w, initial) && refresh in w.refreshes && w.refreshes[refresh].Staged?
    ensures Invariant(stage, OnCommit(w, refresh), initial)
  {
    var Staged(fence, session, version, response, staged) := w.refreshes[refresh];
    var next := OnCommit(w, refresh);
    assert RefreshOk(stage, w, w.refreshes[refresh]);
    if !IsCurrent(w, session, version) {
      RefreshesStay(stage, w, next, initial, refresh);
    } else if MayCommit(fence, w.current, staged) {
      assert w.current == fence.captured;
      RefreshesStay(stage, w, next, initial, refresh);
      HistoryGrows(stage, w, next, initial, Refreshed(refresh, session, version, response));
    } else {
      BeginKeeps(stage, w, initial, refresh, session);
    }
    hide Replay;
  }

  lemma StepInvariant(stage: Stage, w: World, initial: Cache, step: Step)
    requires Invariant(stage, w, initial)
    ensures Invariant(stage, Next(stage, w, step), initial)
  {
    hide Invariant;
    match step
    case StartRefresh => StartStep(stage, w, initial);
    case Respond(refresh, response) =>
      if refresh in w.refreshes && w.refreshes[refresh].Waiting? {
        RespondStep(stage, w, initial, refresh, response);
      }
    case Commit(refresh) =>
      if refresh in w.refreshes && w.refreshes[refresh].Staged? {
        CommitStep(stage, w, initial, refresh);
      }
    case _ => CacheStep(stage, w, initial, step);
  }

  lemma {:induction false} RunInvariant(stage: Stage, w: World, initial: Cache, steps: seq<Step>)
    requires Invariant(stage, w, initial)
    ensures Invariant(stage, Run(stage, w, steps), initial)
  {
    if steps != [] {
      RunInvariant(stage, w, initial, steps[..|steps| - 1]);
      StepInvariant(stage, Run(stage, w, steps[..|steps| - 1]), initial, steps[|steps| - 1]);
    }
  }

  function Start(session: Option<Session>, cache: Cache): World {
    World(CacheObject(0, cache), map[0 := cache], 1, session, 0, map[], 0, [])
  }

  /** Any interleaving of cache updates with any number of overlapping refreshes leaves the
      cache that the same updates give in the same order with each refresh run atomically where
      it committed. */
  lemma RefreshIsAtomic(stage: Stage, session: Option<Session>, cache: Cache, steps: seq<Step>)
    ensures var w := Run(stage, Start(session, cache), steps);
            w.current.cache == Replay(stage, cache, w.changes)
  {
    assert Invariant(stage, Start(session, cache), cache);
    RunInvariant(stage, Start(session, cache), cache, steps);
  }

  /** The step commits refresh `id` onto the current cache of the selected session and version,
      as that cache's own staged successor. */
  ghost predicate CommitsCurrent(stage: Stage, w: World, step: Step, next: World) {
    && step.Commit? && w.session.Some? && w.current.cache.sessionId == w.session
    && exists response ::
         && next.changes == w.changes + [Refreshed(step.refresh, w.session.value, w.version, response)]
         && stage(w.current.cache, response) == Some(next.current.cache)
         && next.current.cache.sessionId == w.session
  }

  /** No step drops a change: the history only grows, by what the step did itself or by one
      refresh, and a refresh commits only for the selected session and version. */
  lemma CommitsOnlyCurrent(stage: Stage, session: Option<Session>, cache: Cache, steps: seq<Step>, step: Step)
    ensures var w := Run(stage, Start(session, cache), steps);
            var next := Next(stage, w, step);
            next.changes == w.changes + Recorded(w, step) || CommitsCurrent(stage, w, step, next)
  {
    assert Invariant(stage, Start(session, cache), cache);
    RunInvariant(stage, Start(session, cache), cache, steps);
    var w := Run(stage, Start(session, cache), steps);
    var next := Next(stage, w, step);
    assert w.changes + [] == w.changes;
    if step.Commit? && next.changes != w.changes {
      var Staged(fence, s, version, response, staged) := w.refreshes[step.refresh];
      assert RefreshOk(stage, w, w.refreshes[step.refresh]);
      assert w.current == fence.captured;
      assert next.changes == w.changes + [Refreshed(step.refresh, s, w.version, response)];
    }
  }

  // ---------- Overtaken refreshes ----------

  /** A refresh that ended, or belongs to an earlier version than the current one. */
  predicate Overtaken(w: World, refresh: nat) {
    refresh < w.nextRefresh && (refresh in w.refreshes ==> w.refreshes[refresh].version < w.version)
  }

  predicate Commits(change: Change, refresh: nat) { change.Refreshed? && change.refresh == refresh }

  lemma OvertakenStep(stage: Stage, w: World, step: Step, refresh: nat)
    requires Overtaken(w, refresh)
    ensures var next := Next(stage, w, step);
            && Overtaken(next, refresh) && w.changes <= next.changes
            && forall i | |w.changes| <= i < |next.changes| :: !Commits(next.changes[i], refresh)
  {
  }

  /** Once a newer version has been selected or restarted, a refresh never commits, whatever
      follows. */
  lemma {:induction false} OvertakenNeverCommits(stage: Stage, w: World, steps: seq<Step>, refresh: nat)
    requires Overtaken(w, refresh)
    ensures var end := Run(stage, w, steps);
            && Overtaken(end, refresh) && w.changes <= end.changes
            && forall i | |w.changes| <= i < |end.changes| :: !Commits(end.changes[i], refresh)
  {
    if steps != [] {
      var n := |steps| - 1;
      OvertakenNeverCommits(stage, w, steps[..n], refresh);
      hide Next, Overtaken;
      OvertakenStep(stage, Run(stage, w, steps[..n]), steps[n], refresh);
    }
  }

  // ---------- Undisturbed refreshes ----------

  /** Refresh `id` has just captured the current cache for the current session and version. */
  predicate JustCaptured(w: World, id: nat) {
    && id in w.refreshes && w.refreshes[id].Waiting?
    && w.refreshes[id].fence.captured == w.current && w.refreshes[id].version == w.version
    && w.session == Some(w.refreshes[id].session)
  }

  /** The cache object and the selection are the same all along. */
  predicate Undisturbed(stage: Stage, w: World, steps: seq<Step>) {
    forall k | 0 <= k <= |steps| ::
      Run(stage, w, steps[..k]).current == w.current && Run(stage, w, steps[..k]).version == w.version
  }

  /** The first reply to refresh `id` is `steps[r]`, and there is no attempt to commit it yet. */
  predicate RepliedAt(steps: seq<Step>, id: nat, r: nat, response: Response) {
    && r < |steps| && steps[r] == Respond(id, response)
    && (forall k | 0 <= k < |steps| :: steps[k] != Commit(id))
    && (forall k | 0 <= k < r :: !(steps[k].Respond? && steps[k].refresh == id))
  }

  /** `now` comes after `w`; unless it shows, nothing has happened to the cache object. */
  predicate Follows(w: World, now: World) {
    && now.nextRef >= w.nextRef && now.version >= w.version
    && (now.version == w.version ==> now.session == w.session)
    && (Disturbed(w, now) || now.current == w.current)
  }

  predicate Disturbed(w: World, now: World) { now.version > w.version || now.current.ref >= w.nextRef }

  lemma DisturbedStep(stage: Stage, w: World, now: World, step: Step)
    requires Follows(w, now)
    ensures Follows(w, Next(stage, now, step))
    ensures Disturbed(w, now) ==> Disturbed(w, Next(stage, now, step))
  {
  }

  lemma RunNext(stage: Stage, w: World, steps: seq<Step>, k: nat)
    requires k < |steps|
    ensures Run(stage, w, steps[..k + 1]) == Next(stage, Run(stage, w, steps[..k]), steps[k])
  {
    assert steps[..k + 1][..k] == steps[..k];
  }

  lemma UndisturbedNext(stage: Stage, w: World, steps: seq<Step>, n: nat)
    requires n < |steps| && Undisturbed(stage, w, steps[..n])
    requires var now := Run(stage, w, steps[..n + 1]); now.current == w.current && now.version == w.version
    ensures Undisturbed(stage, w, steps[..n + 1])
  {
    hide Run;
    var longer := steps[..n + 1];
    forall k | 0 <= k <= n + 1
      ensures Run(stage, w, longer[..k]).current == w.current && Run(stage, w, longer[..k]).version == w.version
    {
      assert longer[..k] == steps[..k];
      if k <= n {
        assert steps[..n][..k] == steps[..k];
      }
    }
  }

  lemma {:induction false} DisturbedOrNot(stage: Stage, w: World, steps: seq<Step>, n: nat)
    requires n <= |steps|
    ensures var now := Run(stage, w, steps[..n]);
            Follows(w, now) && (!Disturbed(w, now) ==> Undisturbed(stage, w, steps[..n]))
  {
    if n > 0 {
      DisturbedOrNot(stage, w, steps, n - 1);
      RunNext(stage, w, steps, n - 1);
      hide Run;
      hide Next;
      DisturbedStep(stage, w, Run(stage, w, steps[..n - 1]), steps[n - 1]);
      if !Disturbed(w, Run(stage, w, steps[..n])) {
        UndisturbedNext(stage, w, steps, n - 1);
      }
    }
  }

  /** Nothing but its own reply or commit touches a refresh. */
  lemma RefreshWaits(stage: Stage, w: World, step: Step, id: nat)
    requires id < w.nextRefresh
    requires step != Commit(id) && !(step.Respond? && step.refresh == id && id in w.refreshes && w.refreshes[id].Waiting?)
    ensures var next := Next(stage, w, step);
            && id < next.nextRefresh && (id in next.refreshes <==> id in w.refreshes)
            && (id in w.refreshes ==> next.refreshes[id] == w.refreshes[id])
  {
  }

  lemma {:induction false} WaitsUntilReply(stage: Stage, w: World, steps: seq<Step>, id: nat, r: nat, response: Response, n: nat)
    requires JustCaptured(w, id) && id < w.nextRefresh && RepliedAt(steps, id, r, response) && n <= r
    ensures var now := Run(stage, w, steps[..n]);
            id < now.nextRefresh && id in now.refreshes && now.refreshes[id] == w.refreshes[id]
  {
    if n > 0 {
      WaitsUntilReply(stage, w, steps, id, r, response, n - 1);
      RunNext(stage, w, steps, n - 1);
      hide Run, Next;
      RefreshWaits(stage, Run(stage, w, steps[..n - 1]), steps[n - 1], id);
    }
  }

  /** What a reply that finds the selection unchanged, or changed, makes of the refresh. */
  ghost predicate Replied(stage: Stage, w: World, now: World, id: nat, response: Response, current: bool)
    requires JustCaptured(w, id)
  {
    var Waiting(fence, session, version) := w.refreshes[id];
    var staged := stage(w.current.cache, response);
    && id < now.nextRefresh
    && (id in now.refreshes <==> current && staged.Some?)
    && (id in now.refreshes ==> now.refreshes[id] == Staged(fence, session, version, response, staged.value))
  }

  lemma ReplyArrives(stage: Stage, w: World, now: World, id: nat, response: Response)
    requires JustCaptured(w, id) && id < now.nextRefresh && id in now.refreshes && now.refreshes[id] == w.refreshes[id]
    requires now.version == w.version ==> now.session == w.session
    ensures Replied(stage, w, Next(stage, now, Respond(id, response)), id, response, now.version == w.version)
  {
  }

  lemma {:induction false} StaysReplied(stage: Stage, w: World, steps: seq<Step>, id: nat, r: nat, response: Response, n: nat)
    requires JustCaptured(w, id) && id < w.nextRefresh && RepliedAt(steps, id, r, response) && r < n <= |steps|
    ensures Replied(stage, w, Run(stage, w, steps[..n]), id, response, Run(stage, w, steps[..r]).version == w.version)
  {
    RunNext(stage, w, steps, n - 1);
    if n == r + 1 {
      WaitsUntilReply(stage, w, steps, id, r, response, r);
      DisturbedOrNot(stage, w, steps, r);
      hide Run, Next;
      ReplyArrives(stage, w, Run(stage, w, steps[..r]), id, response);
    } else {
      StaysReplied(stage, w, steps, id, r, response, n - 1);
      hide Run, Next;
      RefreshWaits(stage, Run(stage, w, steps[..n - 1]), steps[n - 1], id);
    }
  }

  lemma CommitDecides(stage: Stage, w: World, now: World, id: nat, response: Response, current: bool)
    requires JustCaptured(w, id) && RefreshOk(stage, w, w.refreshes[id]) && w.current.ref < w.nextRef
    requires Follows(w, now) && Replied(stage, w, now, id, response, current)
    ensures var next := Next(stage, now, Commit(id));
            var staged := stage(w.current.cache, response);
            && (next.changes != now.changes <==>
                  current && !Disturbed(w, now) && staged.Some? && staged.value.sessionId == w.session)
            && (next.changes != now.changes ==>
                  && next.changes == now.changes + [Refreshed(id, w.session.value, w.version, response)]
                  && next.current.cache == staged.value && id !in next.refreshes)
  {
    hide Replay;
  }

  /** A refresh that captured the cache and got its reply commits exactly when the cache object
      and the selection were left alone all the time since, and the reply makes a usable cache of
      that session; it is then the cache, and the one change. */
  lemma CommitsIffUndisturbed(stage: Stage, session: Option<Session>, cache: Cache, steps: seq<Step>, since: seq<Step>,
                              id: nat, r: nat, response: Response)
    requires var w := Run(stage, Start(session, cache), steps); JustCaptured(w, id)
    requires RepliedAt(since, id, r, response)
    ensures var w := Run(stage, Start(session, cache), steps);
            var now := Run(stage, w, since);
            var next := Next(stage, now, Commit(id));
            var staged := stage(w.current.cache, response);
            && (next.changes != now.changes <==>
                  Undisturbed(stage, w, since) && staged.Some? && staged.value.sessionId == w.session)
            && (next.changes != now.changes ==>
                  && next.changes == now.changes + [Refreshed(id, w.session.value, w.version, response)]
                  && next.current.cache == staged.value && id !in next.refreshes)
  {
    var w := Run(stage, Start(session, cache), steps);
    var n := |since|;
    assert Invariant(stage, Start(session, cache), cache);
    RunInvariant(stage, Start(session, cache), cache, steps);
    assert RefreshOk(stage, w, w.refreshes[id]);
    assert since[..n] == since;
    StaysReplied(stage, w, since, id, r, response, n);
    DisturbedOrNot(stage, w, since, n);
    assert Undisturbed(stage, w, since) ==> Run(stage, w, since[..r]).version == w.version && !Disturbed(w, Run(stage, w, since[..n]));
    hide Run, Replay, Invariant, JustCaptured, Undisturbed;
    CommitDecides(stage, w, Run(stage, w, since), id, response, Run(stage, w, since[..r]).version == w.version);
  }

  /** A refresh starts whenever the selected session's cache has a snapshot, and captures it; one
      that could not commit starts over with the cache as it is then, while its selection lasts. */
  lemma CapturesAgain(stage: Stage, session: Option<Session>, cache: Cache, steps: seq<Step>, id: nat)
    ensures var w := Run(stage, Start(session, cache), steps);
            var begun := Next(stage, w, StartRefresh);
            var again := Next(stage, w, Commit(id));
            && (JustCaptured(begun, w.nextRefresh) <==> Ready(w)) && begun.current == w.current
            && (id in w.refreshes && w.refreshes[id].Staged? && again.changes == w.changes ==>
                  && again.current == w.current
                  && (id in again.refreshes <==> Ready(w) && w.refreshes[id].version == w.version)
                  && (id in again.refreshes ==> JustCaptured(again, id)))
  {
    assert Invariant(stage, Start(session, cache), cache);
    RunInvariant(stage, Start(session, cache), cache, steps);
    var w := Run(stage, Start(session, cache), steps);
    assert forall other | other in w.refreshes :: other < w.nextRefresh;
    if id in w.refreshes {
      assert RefreshOk(stage, w, w.refreshes[id]);
    }
    hide Run, Replay, Invariant;
    StartCaptures(stage, w);
    if id in w.refreshes && w.refreshes[id].Staged? && Next(stage, w, Commit(id)).changes == w.changes {
      FailedCommitCaptures(stage, w, id);
    }
  }

  predicate Ready(w: World) {
    w.session.Some? && w.current.cache.sessionId == w.session && w.current.cache.snapshot.Some?
  }

  lemma StartCaptures(stage: Stage, w: World)
    requires w.nextRefresh !in w.refreshes
    ensures var begun := Next(stage, w, StartRefresh);
            (JustCaptured(begun, w.nextRefresh) <==> Ready(w)) && begun.current == w.current
  {
  }

  lemma FailedCommitCaptures(stage: Stage, w: World, id: nat)
    requires id in w.refreshes && w.refreshes[id].Staged? && RefreshOk(stage, w, w.refreshes[id])
    requires Next(stage, w, Commit(id)).changes == w.changes
    ensures var again := Next(stage, w, Commit(id));
            && again.current == w.current
            && (id in again.refreshes <==> Ready(w) && w.refreshes[id].version == w.version)
            && (id in again.refreshes ==> JustCaptured(again, id))
  {
  }

  /** So a refresh whose reply comes before anything else happens commits. */
  lemma LoneRefreshCommits(stage: Stage, session: Option<Session>, cache: Cache, steps: seq<Step>, response: Response)
    requires var w := Run(stage, Start(session, cache), steps);
             Ready(w) && stage(w.current.cache, response).Some? && stage(w.current.cache, response).value.sessionId == w.session
    ensures var w := Run(stage, Start(session, cache), steps);
            var id := w.nextRefresh;
            Run(stage, w, [StartRefresh] + [Respond(id, response)] + [Commit(id)]).current.cache ==
            stage(w.current.cache, response).value
  {
    var w := Run(stage, Start(session, cache), steps);
    var id := w.nextRefresh;
    var begun := steps + [StartRefresh];
    var since := [Respond(id, response)];
    CapturesAgain(stage, session, cache, steps, id);
    RunAfter(stage, Start(session, cache), steps, StartRefresh);
    RunAfter(stage, w, [], StartRefresh);
    RunAfter(stage, w, [StartRefresh], Respond(id, response));
    RunAfter(stage, w, [StartRefresh] + [Respond(id, response)], Commit(id));
    var start := Next(stage, w, StartRefresh);
    RunAfter(stage, start, [], Respond(id, response));
    assert [] + [StartRefresh] == [StartRefresh] && [] + since == since;
    ReplyLeavesAlone(stage, start, id, response);
    hide Run, Next;
    CommitsIffUndisturbed(stage, session, cache, begun, since, id, 0, response);
  }

  lemma RunAfter(stage: Stage, w: World, steps: seq<Step>, step: Step)
    ensures Run(stage, w, steps + [step]) == Next(stage, Run(stage, w, steps), step)
    ensures Run(stage, w, []) == w
  {
    assert (steps + [step])[..|steps|] == steps;
  }

  lemma ReplyLeavesAlone(stage: Stage, w: World, id: nat, response: Response)
    ensures Undisturbed(stage, w, [Respond(id, response)])
  {
    var steps := [Respond(id, response)];
    assert steps[..0] == [] && steps[..1] == steps;
    forall k | 0 <= k <= 1
      ensures Run(stage, w, steps[..k]).current == w.current && Run(stage, w, steps[..k]).version == w.version
    {
    }
  }
}
