/** Fetching the selected session: the pure fetch-state transitions and the
    single-flight coordinator with its selection versions. A request is settled
    and, in a later step, forgotten. */
module SelectedSessionFetch {
  import opened CodeUnits

  type Session = int

  datatype FetchState = FetchState(
    sessionId: Option<Session>,
    selectionVersion: nat,
    loading: bool,
    fetching: bool,
    retrying: bool,
    hadUsableCache: bool,
    error: Option<int>)

  /** `beginSelectedSessionFetch` */
  function Begin(current: FetchState, session: Session, version: nat, hasUsableCache: bool): FetchState {
    var retrying := current.sessionId == Some(session) && current.selectionVersion == version && current.error.Some?;
    var usable := if retrying then current.hadUsableCache else hasUsableCache;
    FetchState(Some(session), version, !usable, true, retrying, usable, if retrying then current.error else None)
  }

  /** `settleSelectedSessionFetch` */
  function SettleState(current: FetchState, session: Session, version: nat, error: Option<int>): FetchState {
    if current.sessionId != Some(session) || current.selectionVersion != version then current
    else
      FetchState(Some(session), version, false, false, false,
                 if error.None? then true else current.hadUsableCache, error)
  }

  datatype InFlight = InFlight(session: Session, version: nat, request: nat)
  datatype Request = Request(session: Session, version: nat, settled: bool)

  datatype State = State(
    fetch: FetchState,
    inFlight: Option<InFlight>,
    requests: map<nat, Request>,
    nextRequest: nat)

  function Select(s: State, session: Option<Session>, hasUsableCache: bool): State {
    s.(fetch := FetchState(session, s.fetch.selectionVersion + 1, session.Some? && !hasUsableCache, false, false,
                           hasUsableCache, None))
  }

  function Restart(s: State, hasUsableCache: bool): State {
    var usable := if s.fetch.error.Some? then s.fetch.hadUsableCache else hasUsableCache;
    s.(fetch := s.fetch.(selectionVersion := s.fetch.selectionVersion + 1,
                         loading := s.fetch.sessionId.Some? && !usable,
                         fetching := false, retrying := false, hadUsableCache := usable))
  }

  predicate IsCurrent(s: State, session: Session, version: nat) {
    s.fetch.sessionId == Some(session) && s.fetch.selectionVersion == version
  }

  /** `run`: refuse a stale session, join the current request, or start one. */
  function Run(s: State, session: Session, hasUsableCache: bool): State {
    if s.fetch.sessionId != Some(session) then s
    else if s.inFlight.Some? && IsCurrent(s, s.inFlight.value.session, s.inFlight.value.version) then s
    else
      var version := s.fetch.selectionVersion;
      s.(fetch := Begin(s.fetch, session, version, hasUsableCache),
         inFlight := Some(InFlight(session, version, s.nextRequest)),
         requests := s.requests[s.nextRequest := Request(session, version, false)],
         nextRequest := s.nextRequest + 1)
  }

  /** A request's promise resolves or rejects. */
  function Settle(s: State, request: nat, error: Option<int>): State {
    if request !in s.requests || s.requests[request].settled then s
    else
      var r := s.requests[request];
      s.(fetch := SettleState(s.fetch, r.session, r.version, error),
         requests := s.requests[request := r.(settled := true)])
  }

  /** Its `finally` callback. */
  function Finish(s: State, request: nat): State {
    if request !in s.requests || !s.requests[request].settled then s
    else
      s.(inFlight := if s.inFlight.Some? && s.inFlight.value.request == request then None else s.inFlight,
         requests := s.requests - {request})
  }

  datatype Step =
    | DoSelect(session: Option<Session>, hasUsableCache: bool)
    | DoRestart(hasUsableCache: bool)
    | DoRun(runSession: Session, hasUsableCache: bool)
    | DoSettle(request: nat, error: Option<int>)
    | DoFinish(request: nat)

  function Next(s: State, step: Step): State {
    match step
    case DoSelect(session, usable) => Select(s, session, usable)
    case DoRestart(usable) => Restart(s, usable)
    case DoRun(session, usable) => Run(s, session, usable)
    case DoSettle(request, error) => Settle(s, request, error)
    case DoFinish(request) => Finish(s, request)
  }

  function RunAll(s: State, steps: seq<Step>): State {
    if steps == [] then s else Next(RunAll(s, steps[..|steps| - 1]), steps[|steps| - 1])
  }

  /** The coordinator as constructed: nothing fetching, nothing asked. */
  predicate Initial(s: State) {
    && !s.fetch.fetching && !s.fetch.retrying
    && s.inFlight.None? && s.requests == map[] && s.nextRequest == 0
  }

  /** An unsettled request for the current selection. */
  predicate Outstanding(s: State, request: nat) {
    request in s.requests && !s.requests[request].settled &&
    IsCurrent(s, s.requests[request].session, s.requests[request].version)
  }

  ghost predicate Invariant(s: State) {
    && (forall r | r in s.requests ::
          && r < s.nextRequest && s.requests[r].version <= s.fetch.selectionVersion
          && (s.requests[r].version == s.fetch.selectionVersion ==> s.fetch.sessionId == Some(s.requests[r].session)))
    && (s.inFlight.Some? ==>
          var f := s.inFlight.value;
          f.request in s.requests && s.requests[f.request].session == f.session &&
          s.requests[f.request].version == f.version)
    && (forall r | Outstanding(s, r) :: s.inFlight.Some? && s.inFlight.value.request == r)
    && (s.fetch.fetching <==> exists r :: Outstanding(s, r))
    && (s.fetch.retrying ==> s.fetch.error.Some? && s.fetch.fetching)
  }

  lemma SelectionStep(s: State, next: State)
    requires Invariant(s)
    requires next.inFlight == s.inFlight && next.requests == s.requests && next.nextRequest == s.nextRequest
    requires next.fetch.selectionVersion > s.fetch.selectionVersion
    requires !next.fetch.fetching && !next.fetch.retrying
    ensures Invariant(next)
  {
    assert forall r :: !Outstanding(next, r);
  }

  lemma RunStep(s: State, session: Session, usable: bool)
    requires Invariant(s)
    ensures Invariant(Run(s, session, usable))
  {
    var next := Run(s, session, usable);
    if next != s {
      assert forall r :: !Outstanding(s, r);
      assert Outstanding(next, s.nextRequest);
      forall r | Outstanding(next, r)
        ensures r == s.nextRequest
      {
        if r != s.nextRequest {
          assert Outstanding(s, r);
        }
      }
    }
  }

  lemma SettleStep(s: State, request: nat, error: Option<int>)
    requires Invariant(s)
    ensures Invariant(Settle(s, request, error))
  {
    var next := Settle(s, request, error);
    if next != s {
      assert forall r :: Outstanding(next, r) <==> Outstanding(s, r) && r != request;
      if Outstanding(s, request) {
        assert forall r :: !Outstanding(next, r);
      } else {
        assert next.fetch == s.fetch;
      }
    }
  }

  lemma FinishStep(s: State, request: nat)
    requires Invariant(s)
    ensures Invariant(Finish(s, request))
  {
    var next := Finish(s, request);
    if next != s {
      assert forall r :: Outstanding(next, r) <==> Outstanding(s, r);
    }
  }

  lemma {:induction false} RunInvariant(s: State, steps: seq<Step>)
    requires Initial(s)
    ensures Invariant(RunAll(s, steps))
  {
    if steps != [] {
      var before := RunAll(s, steps[..|steps| - 1]);
      RunInvariant(s, steps[..|steps| - 1]);
      match steps[|steps| - 1] {
        case DoSelect(session, usable) => SelectionStep(before, Select(before, session, usable));
        case DoRestart(usable) => SelectionStep(before, Restart(before, usable));
        case DoRun(session, usable) => RunStep(before, session, usable);
        case DoSettle(request, error) => SettleStep(before, request, error);
        case DoFinish(request) => FinishStep(before, request);
      }
    }
  }

  /** In every reachable state at most one unsettled request serves the current selection,
      `fetching` says whether there is one, retrying keeps the error being retried, and the
      settlement of a request of an older selection changes nothing the client can see. */
  lemma SingleFlight(s: State, steps: seq<Step>)
    requires Initial(s)
    ensures var end := RunAll(s, steps);
            && (forall a, b | Outstanding(end, a) && Outstanding(end, b) :: a == b)
            && (end.fetch.fetching <==> exists r :: Outstanding(end, r))
            && (end.fetch.retrying ==> end.fetch.error.Some?)
            && (forall r, error | r in end.requests && end.requests[r].version < end.fetch.selectionVersion ::
                  Settle(end, r, error).fetch == end.fetch && Settle(end, r, error).inFlight == end.inFlight)
  {
    RunInvariant(s, steps);
  }

  /** A run for the selected session always has a request of the current selection to wait for:
      the one at hand, outstanding or not yet forgotten, or else a new one, which is fetching and
      retries the error shown, if any. A run for another session does nothing. */
  lemma RunIsServed(s: State, steps: seq<Step>, session: Session, usable: bool)
    requires Initial(s)
    ensures var end := RunAll(s, steps);
            var next := Next(end, DoRun(session, usable));
            var atHand := end.inFlight.Some? && end.inFlight.value.version == end.fetch.selectionVersion;
            if end.fetch.sessionId != Some(session) || atHand then next == end
            else
              && Outstanding(next, end.nextRequest) && next.inFlight.Some? && next.inFlight.value.request == end.nextRequest
              && next.fetch.fetching && next.fetch.retrying == end.fetch.error.Some? && next.fetch.error == end.fetch.error
              && next.fetch.loading == !(if end.fetch.error.Some? then end.fetch.hadUsableCache else usable)
              && next.fetch.sessionId == end.fetch.sessionId && next.fetch.selectionVersion == end.fetch.selectionVersion
    ensures var end := RunAll(s, steps);
            var next := Next(end, DoRun(session, usable));
            end.fetch.sessionId == Some(session) ==>
              next.inFlight.Some? && next.inFlight.value.request in next.requests &&
              next.requests[next.inFlight.value.request].session == session &&
              next.requests[next.inFlight.value.request].version == next.fetch.selectionVersion
  {
    RunInvariant(s, steps);
    hide RunAll;
  }

  /** The settlement of the outstanding request is what is shown: its error or none, nothing
      loading or fetching any more, and after a success a usable cache. A selection or a restart
      shows nothing of what came before but, for a restart, the error. */
  lemma SettlementIsShown(s: State, steps: seq<Step>, request: nat, error: Option<int>, session: Option<Session>, usable: bool)
    requires Initial(s)
    ensures var end := RunAll(s, steps);
            var settled := Next(end, DoSettle(request, error)).fetch;
            Outstanding(end, request) ==>
              && settled.error == error && !settled.fetching && !settled.loading && !settled.retrying
              && settled.hadUsableCache == (error.None? || end.fetch.hadUsableCache)
              && settled.sessionId == end.fetch.sessionId && settled.selectionVersion == end.fetch.selectionVersion
    ensures var end := RunAll(s, steps);
            var selected, restarted := Next(end, DoSelect(session, usable)), Next(end, DoRestart(usable));
            && (forall r :: !Outstanding(selected, r) && !Outstanding(restarted, r))
            && selected.fetch.sessionId == session && selected.fetch.error.None?
            && selected.fetch.loading == (session.Some? && !usable)
            && restarted.fetch.sessionId == end.fetch.sessionId && restarted.fetch.error == end.fetch.error
            && restarted.fetch.loading ==
               (end.fetch.sessionId.Some? && !(if end.fetch.error.Some? then end.fetch.hadUsableCache else usable))
  {
    RunInvariant(s, steps);
    hide RunAll;
  }

  /** Versions only grow. */
  lemma {:induction false} VersionsGrow(s: State, steps: seq<Step>, k: nat)
    requires k <= |steps|
    ensures RunAll(s, steps[..k]).fetch.selectionVersion <= RunAll(s, steps).fetch.selectionVersion
    decreases |steps| - k
  {
    if k == |steps| {
      assert steps[..k] == steps;
    } else {
      VersionsGrow(s, steps, k + 1);
      assert steps[..k + 1][..k] == steps[..k];
    }
  }

  // ---------- The coordinator ----------

  class Coordinator {
    var fetch: FetchState
    var inFlight: Option<InFlight>
    var requests: map<nat, Request>
    var nextRequest: nat

    ghost function Snapshot(): State
      reads this
    {
      State(fetch, inFlight, requests, nextRequest)
    }

    constructor (initial: FetchState)
      ensures Snapshot() == State(initial, None, map[], 0)
    {
      fetch, inFlight, requests, nextRequest := initial, None, map[], 0;
    }

    method SelectSession(session: Option<Session>, hasUsableCache: bool) returns (version: nat)
      modifies this
      ensures Snapshot() == Select(old(Snapshot()), session, hasUsableCache)
      ensures version == fetch.selectionVersion == old(fetch.selectionVersion) + 1
    {
      version := fetch.selectionVersion + 1;
      fetch := FetchState(session, version, session.Some? && !hasUsableCache, false, false, hasUsableCache, None);
    }

    method RestartFetch(hasUsableCache: bool) returns (version: nat)
      modifies this
      ensures Snapshot() == Restart(old(Snapshot()), hasUsableCache)
      ensures version == fetch.selectionVersion == old(fetch.selectionVersion) + 1
    {
      version := fetch.selectionVersion + 1;
      var usable := if fetch.error.Some? then fetch.hadUsableCache else hasUsableCache;
      fetch := fetch.(selectionVersion := version, loading := fetch.sessionId.Some? && !usable,
                      fetching := false, retrying := false, hadUsableCache := usable);
    }

    /** The request this caller waits for: None when the session is not selected. */
    method RunFetch(session: Session, hasUsableCache: bool) returns (request: Option<nat>)
      modifies this
      ensures Snapshot() == Run(old(Snapshot()), session, hasUsableCache)
      ensures request.Some? <==> old(fetch.sessionId) == Some(session)
      ensures request.Some? ==> inFlight.Some? && inFlight.value.request == request.value
    {
      if fetch.sessionId != Some(session) { return None; }
      if inFlight.Some? && inFlight.value.session == session && inFlight.value.version == fetch.selectionVersion {
        return Some(inFlight.value.request);
      }
      var version := fetch.selectionVersion;
      fetch := Begin(fetch, session, version, hasUsableCache);
      inFlight := Some(InFlight(session, version, nextRequest));
      requests := requests[nextRequest := Request(session, version, false)];
      nextRequest := nextRequest + 1;
      return Some(nextRequest - 1);
    }

    method Settled(request: nat, error: Option<int>)
      modifies this
      ensures Snapshot() == Settle(old(Snapshot()), request, error)
    {
      if request !in requests || requests[request].settled { return; }
      var r := requests[request];
      fetch := SettleState(fetch, r.session, r.version, error);
      requests := requests[request := r.(settled := true)];
    }

    method Finished(request: nat)
      modifies this
      ensures Snapshot() == Finish(old(Snapshot()), request)
    {
      if request !in requests || !requests[request].settled { return; }
      if inFlight.Some? && inFlight.value.request == request { inFlight := None; }
      requests := requests - {request};
    }
  }
}
