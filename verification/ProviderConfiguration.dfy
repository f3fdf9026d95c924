/** Per-session provider edits: coalesced while a `configure` call is in flight,
    replayed on top of the server's answer, retried after failures. Every `await`
    is a step of the environment. */
module ProviderConfiguration {
  import opened CodeUnits

  type Session = int

  /** A provider object: its identity and its fields. */
  datatype Provider = Provider(ref: nat, config: int)
  /** An edit of the provider. */
  datatype Transform = Transform(apply: Provider -> Provider)

  /** `transforms.reduce((current, transform) => transform(current), provider)` */
  function Fold(provider: Provider, transforms: seq<Transform>): Provider {
    if transforms == [] then provider
    else transforms[|transforms| - 1].apply(Fold(provider, transforms[..|transforms| - 1]))
  }

  method ApplyTransforms(provider: Provider, transforms: seq<Transform>) returns (current: Provider)
    ensures current == Fold(provider, transforms)
  {
    current := provider;
    for i := 0 to |transforms|
      invariant current == Fold(provider, transforms[..i])
    {
      assert transforms[..i + 1][..i] == transforms[..i];
      current := transforms[i].apply(current);
    }
    assert transforms[..|transforms|] == transforms;
  }

  datatype Pending = Pending(record: nat, desired: Provider, transforms: seq<Transform>)
  datatype Call = Call(session: Session, requested: Provider)
  datatype Outcome = Succeeded(provider: Option<Provider>) | Failed

  /** The callbacks, in the order they are made. */
  datatype Effect =
    | Configured(session: Session, provider: Provider)
    | Committed(session: Session, provider: Provider)
    | Reported(session: Session)

  datatype State = State(
    pending: map<Session, Pending>,
    calls: map<nat, Call>,
    nextRecord: nat,
    disposed: bool,
    effects: seq<Effect>)

  // ---------- The controller's steps ----------

  /** Send the desired provider: the loop head of `run`. */
  function Send(s: State, session: Session): State
    requires session in s.pending
  {
    var p := s.pending[session];
    s.(pending := s.pending[session := p.(transforms := [])],
       calls := s.calls[p.record := Call(session, p.desired)],
       effects := s.effects + [Configured(session, p.desired)])
  }

  /** `update` */
  function Update(s: State, session: Session, base: Provider, transform: Transform): State {
    if s.disposed then s
    else if session in s.pending then
      var p := s.pending[session];
      s.(pending := s.pending[session := p.(desired := transform.apply(p.desired), transforms := p.transforms + [transform])])
    else
      Send(s.(pending := s.pending[session := Pending(s.nextRecord, transform.apply(base), [])],
              nextRecord := s.nextRecord + 1), session)
  }

  /** `dispose` */
  function Dispose(s: State): State {
    if s.disposed then s else s.(disposed := true, pending := map[])
  }

  function Answer(reply: Option<Provider>, requested: Provider): Provider {
    if reply.Some? then reply.value else requested
  }

  /** The continuation of `run` after its `await`. */
  function Settle(s: State, record: nat, outcome: Outcome): State {
    if record !in s.calls then s
    else
      var Call(session, requested) := s.calls[record];
      var settled := s.(calls := s.calls - {record});
      if s.disposed || session !in s.pending || s.pending[session].record != record then settled
      else
        var p := s.pending[session];
        match outcome
        case Succeeded(reply) =>
          var provider := Answer(reply, requested);
          var committed := settled.(effects := s.effects + [Committed(session, provider)]);
          if p.transforms == [] then committed.(pending := s.pending - {session})
          else Send(committed.(pending := s.pending[session := p.(desired := Fold(provider, p.transforms))]), session)
        case Failed =>
          if p.desired.ref != requested.ref then Send(settled, session)
          else settled.(pending := s.pending - {session}, effects := s.effects + [Reported(session)])
  }

  datatype Step =
    | Edit(session: Session, base: Provider, transform: Transform)
    | Reply(record: nat, outcome: Outcome)
    | Close

  function Next(s: State, step: Step): State {
    match step
    case Edit(session, base, transform) => Update(s, session, base, transform)
    case Reply(record, outcome) => Settle(s, record, outcome)
    case Close => Dispose(s)
  }

  const IDLE: State := State(map[], map[], 0, false, [])

  function Run(steps: seq<Step>): State {
    if steps == [] then IDLE else Next(Run(steps[..|steps| - 1]), steps[|steps| - 1])
  }

  /** The state after the first `k` steps. */
  function At(steps: seq<Step>, k: nat): State
    requires k <= |steps|
  {
    Run(steps[..k])
  }

  lemma AtNext(steps: seq<Step>, k: nat)
    requires k < |steps|
    ensures At(steps, k + 1) == Next(At(steps, k), steps[k])
  {
    assert steps[..k + 1][..k] == steps[..k];
  }

  // ---------- Read off the steps alone ----------

  /** The edits of a session, in order. */
  function EditsOf(steps: seq<Step>, session: Session): seq<Transform> {
    if steps == [] then []
    else
      var earlier := EditsOf(steps[..|steps| - 1], session);
      var last := steps[|steps| - 1];
      if last.Edit? && last.session == session then earlier + [last.transform] else earlier
  }

  /** How many replies a call record got. */
  function Replies(steps: seq<Step>, record: nat): nat {
    if steps == [] then 0
    else
      var last := steps[|steps| - 1];
      Replies(steps[..|steps| - 1], record) + if last.Reply? && last.record == record then 1 else 0
  }

  /** Where the edits not yet sent begin: after the last reply, or after the edit at `i`. */
  function Unsent(steps: seq<Step>, i: nat, k: nat, record: nat): (m: nat)
    requires i < k <= |steps|
    ensures i < m <= k
  {
    if k == i + 1 || (steps[k - 1].Reply? && steps[k - 1].record == record) then k
    else Unsent(steps, i, k - 1, record)
  }

  lemma EditsSnoc(steps: seq<Step>, i: nat, k: nat, session: Session)
    requires i <= k < |steps|
    ensures EditsOf(steps[i..k + 1], session) ==
            EditsOf(steps[i..k], session) +
            if steps[k].Edit? && steps[k].session == session then [steps[k].transform] else []
  {
    assert steps[i..k + 1][..k - i] == steps[i..k];
  }

  lemma {:induction false} EditsSplit(steps: seq<Step>, i: nat, m: nat, k: nat, session: Session)
    requires i <= m <= k <= |steps|
    ensures EditsOf(steps[i..k], session) == EditsOf(steps[i..m], session) + EditsOf(steps[m..k], session)
    decreases k
  {
    if m == k {
      assert steps[m..k] == [];
    } else {
      EditsSplit(steps, i, m, k - 1, session);
      EditsSnoc(steps, i, k - 1, session);
      EditsSnoc(steps, m, k - 1, session);
    }
  }

  lemma RepliesSnoc(steps: seq<Step>, i: nat, k: nat, record: nat)
    requires i <= k < |steps|
    ensures Replies(steps[i..k + 1], record) ==
            Replies(steps[i..k], record) + if steps[k].Reply? && steps[k].record == record then 1 else 0
  {
    assert steps[i..k + 1][..k - i] == steps[i..k];
  }

  // ---------- Folding edits ----------

  /** A transform looks only at the provider's fields. */
  ghost predicate Respectful(transform: Transform) {
    forall a: Provider, b: Provider | a.config == b.config :: transform.apply(a).config == transform.apply(b).config
  }

  ghost predicate Allowed(steps: seq<Step>) {
    forall i | 0 <= i < |steps| :: steps[i].Edit? ==> Respectful(steps[i].transform)
  }

  lemma {:induction false} FoldConcat(p: Provider, a: seq<Transform>, b: seq<Transform>)
    ensures Fold(p, a + b) == Fold(Fold(p, a), b)
    decreases |b|
  {
    if b == [] {
      assert a + b == a;
    } else {
      assert (a + b)[..|a + b| - 1] == a + b[..|b| - 1];
      FoldConcat(p, a, b[..|b| - 1]);
    }
  }

  lemma {:induction false} FoldRespects(p: Provider, q: Provider, ts: seq<Transform>)
    requires p.config == q.config
    requires forall i | 0 <= i < |ts| :: Respectful(ts[i])
    ensures Fold(p, ts).config == Fold(q, ts).config
  {
    if ts != [] {
      FoldRespects(p, q, ts[..|ts| - 1]);
      assert Respectful(ts[|ts| - 1]);
    }
  }

  lemma {:induction false} EditsRespectful(steps: seq<Step>, session: Session)
    requires Allowed(steps)
    ensures forall i | 0 <= i < |EditsOf(steps, session)| :: Respectful(EditsOf(steps, session)[i])
  {
    if steps != [] {
      var n := |steps| - 1;
      assert forall i | 0 <= i < n :: steps[..n][i] == steps[i];
      EditsRespectful(steps[..n], session);
      assert steps[n].Edit? ==> Respectful(steps[n].transform);
      hide Respectful;
    }
  }

  // ---------- Every reachable state ----------

  ghost predicate PendingOk(s: State, session: Session)
    requires session in s.pending
  {
    var record := s.pending[session].record;
    record < s.nextRecord && record in s.calls && s.calls[record].session == session
  }

  /** A call belongs to a live record, unless the controller was disposed under it. */
  ghost predicate CallOk(s: State, record: nat)
    requires record in s.calls
  {
    && record < s.nextRecord
    && (s.disposed || (s.calls[record].session in s.pending && s.pending[s.calls[record].session].record == record))
  }

  ghost predicate OneCallPerSession(s: State) {
    forall a, b | a in s.calls && b in s.calls && s.calls[a].session == s.calls[b].session :: a == b
  }

  ghost predicate Invariant(s: State) {
    && (forall session | session in s.pending :: PendingOk(s, session))
    && (forall record | record in s.calls :: CallOk(s, record))
    && OneCallPerSession(s)
    && (s.disposed ==> s.pending == map[])
  }

  lemma EditInvariant(s: State, session: Session, base: Provider, t: Transform)
    requires Invariant(s)
    ensures Invariant(Update(s, session, base, t))
  {
    assert forall other | other in s.pending :: PendingOk(s, other);
    assert forall record | record in s.calls :: CallOk(s, record);
  }

  /** Taking a record's call away, and its pending entry, or giving it another call. */
  lemma RecordSettled(s: State, session: Session, record: nat, effects: seq<Effect>)
    requires Invariant(s) && !s.disposed && session in s.pending && s.pending[session].record == record
    ensures Invariant(s.(pending := s.pending - {session}, calls := s.calls - {record}, effects := effects))
    ensures forall p: Pending, requested | p.record == record ::
              Invariant(s.(pending := s.pending[session := p],
                           calls := (s.calls - {record})[record := Call(session, requested)], effects := effects))
  {
    assert forall other | other in s.pending :: PendingOk(s, other);
    assert forall r | r in s.calls :: CallOk(s, r);
  }

  lemma ReplyInvariant(s: State, record: nat, outcome: Outcome)
    requires Invariant(s)
    ensures Invariant(Settle(s, record, outcome))
  {
    if record in s.calls {
      assert CallOk(s, record);
      if s.disposed {
        assert forall r | r in s.calls :: CallOk(s, r);
      } else {
        var session := s.calls[record].session;
        var p, next := s.pending[session], Settle(s, record, outcome);
        RecordSettled(s, session, record, next.effects);
        hide Fold, Invariant;
        if session in next.pending {
          var settled := next.pending[session];
          assert settled.record == record;
          assert next.pending == s.pending[session := settled];
          assert next == s.(pending := s.pending[session := settled],
                            calls := (s.calls - {record})[record := Call(session, settled.desired)], effects := next.effects);
        }
      }
    }
  }

  lemma StepInvariant(s: State, step: Step)
    requires Invariant(s)
    ensures Invariant(Next(s, step))
  {
    hide Invariant;
    match step
    case Edit(session, base, t) => EditInvariant(s, session, base, t);
    case Reply(record, outcome) => ReplyInvariant(s, record, outcome);
    case Close => CloseInvariant(s);
  }

  lemma CloseInvariant(s: State)
    requires Invariant(s)
    ensures Invariant(Dispose(s))
  {
    assert forall record | record in s.calls :: CallOk(s, record);
  }

  lemma {:induction false} RunInvariant(steps: seq<Step>)
    ensures Invariant(Run(steps))
  {
    if steps != [] {
      RunInvariant(steps[..|steps| - 1]);
      hide Next, Invariant;
      StepInvariant(Run(steps[..|steps| - 1]), steps[|steps| - 1]);
    }
  }

  // ---------- One record, from its first edit on ----------

  /** Step `i` is an edit that finds nothing pending for its session. */
  predicate Opens(steps: seq<Step>, i: nat, session: Session) {
    && i < |steps| && steps[i].Edit? && steps[i].session == session
    && !At(steps, i).disposed && session !in At(steps, i).pending
  }

  /** Step `i` opened a record for the session that is still open before step `k`. */
  predicate OpenFrom(steps: seq<Step>, i: nat, k: nat, session: Session) {
    && Opens(steps, i, session) && i < k <= |steps|
    && forall j | i < j <= k :: session in At(steps, j).pending
  }

  /** The outcome, if it is an answer, carries the fields that were asked for. */
  predicate EchoedBy(requested: Provider, outcome: Outcome) {
    outcome.Succeeded? ==> Answer(outcome.provider, requested).config == requested.config
  }

  /** Every answer the record got so far carries the fields that were asked for. */
  predicate Echoing(steps: seq<Step>, i: nat, k: nat, record: nat)
    requires k <= |steps|
  {
    forall j | i < j < k && steps[j].Reply? && steps[j].record == record && steps[j].outcome.Succeeded? ::
      record in At(steps, j).calls && EchoedBy(At(steps, j).calls[record].requested, steps[j].outcome)
  }

  /** The session's record and call, given the edits sent and queued so far, the number of
      replies, and whether the answers were echoes. */
  ghost predicate Holds(s: State, record: nat, session: Session, base: Provider,
                        sent: seq<Transform>, queued: seq<Transform>, replies: nat, echoing: bool)
  {
    && session in s.pending && s.pending[session].record == record
    && record in s.calls && s.calls[record].session == session
    && var requested := s.calls[record].requested;
       && s.pending[session].transforms == queued
       && s.pending[session].desired == Fold(requested, queued)
       && replies + 1 <= |sent|
       && (echoing ==> requested.config == Fold(base, sent).config)
  }

  lemma OpeningHolds(s: State, session: Session, base: Provider, t: Transform)
    requires !s.disposed && session !in s.pending
    ensures Holds(Update(s, session, base, t), s.nextRecord, session, base, [t], [], 0, true)
  {
    assert [t][..0] == [];
    assert Fold(base, [t]) == t.apply(base);
  }

  /** An edit of the session joins the queue. */
  lemma EditHolds(s: State, record: nat, session: Session, base: Provider, sent: seq<Transform>, queued: seq<Transform>,
                  replies: nat, echoing: bool, anyBase: Provider, t: Transform)
    requires Holds(s, record, session, base, sent, queued, replies, echoing) && !s.disposed
    ensures Holds(Update(s, session, anyBase, t), record, session, base, sent, queued + [t], replies, echoing)
  {
    assert (queued + [t])[..|queued|] == queued;
  }

  /** A reply to the record settles its call; if the record stays open everything queued is sent. */
  lemma ReplyHolds(s: State, record: nat, session: Session, base: Provider, sent: seq<Transform>, queued: seq<Transform>,
                   replies: nat, echoing: bool, outcome: Outcome)
    requires Holds(s, record, session, base, sent, queued, replies, echoing) && !s.disposed
    requires session in Settle(s, record, outcome).pending
    requires echoing ==> forall i | 0 <= i < |queued| :: Respectful(queued[i])
    ensures Holds(Settle(s, record, outcome), record, session, base, sent + queued, [], replies + 1,
                  echoing && EchoedBy(s.calls[record].requested, outcome))
  {
    var requested := s.calls[record].requested;
    var answer := if outcome.Succeeded? then Answer(outcome.provider, requested) else requested;
    assert Fold(requested, []) == requested;
    hide Respectful;
    assert Settle(s, record, outcome).calls[record].requested == Fold(answer, queued);
    hide Settle;
    if echoing && EchoedBy(requested, outcome) {
      FoldConcat(base, sent, queued);
      FoldRespects(answer, Fold(base, sent), queued);
    }
  }

  /** Other steps leave the session's record and call alone. */
  lemma OtherHolds(s: State, record: nat, session: Session, base: Provider, sent: seq<Transform>, queued: seq<Transform>,
                   replies: nat, echoing: bool, step: Step)
    requires Holds(s, record, session, base, sent, queued, replies, echoing) && Invariant(s)
    requires (step.Edit? ==> step.session != session) && (step.Reply? ==> step.record != record)
    requires session in Next(s, step).pending
    ensures Holds(Next(s, step), record, session, base, sent, queued, replies, echoing)
  {
    assert PendingOk(s, session);
    assert step.Reply? && step.record in s.calls ==> CallOk(s, step.record);
    hide Fold, OneCallPerSession;
  }

  /** What an open record holds, in terms of the steps since it was opened. */
  ghost predicate Accounted(steps: seq<Step>, i: nat, k: nat, session: Session)
    requires Opens(steps, i, session) && i < k <= |steps|
  {
    var record := At(steps, i).nextRecord;
    var unsent := Unsent(steps, i, k, record);
    && Holds(At(steps, k), record, session, steps[i].base, EditsOf(steps[i..unsent], session),
             EditsOf(steps[unsent..k], session), Replies(steps[i..k], record),
             Allowed(steps) && Echoing(steps, i, k, record))
  }

  lemma FirstAccount(steps: seq<Step>, i: nat, session: Session)
    requires Opens(steps, i, session)
    ensures Accounted(steps, i, i + 1, session)
  {
    AtNext(steps, i);
    assert steps[i..i + 1] == [steps[i]] && [steps[i]][..0] == [];
    assert steps[i + 1..i + 1] == [];
    OpeningHolds(At(steps, i), session, steps[i].base, steps[i].transform);
    assert EditsOf([steps[i]], session) == [steps[i].transform];
    assert Replies([steps[i]], At(steps, i).nextRecord) == 0;
    hide Run, Update;
  }

  lemma QueuedRespectful(steps: seq<Step>, m: nat, k: nat, session: Session)
    requires Allowed(steps) && m <= k <= |steps|
    ensures forall i | 0 <= i < |EditsOf(steps[m..k], session)| :: Respectful(EditsOf(steps[m..k], session)[i])
  {
    assert forall j | 0 <= j < k - m :: steps[m..k][j] == steps[m + j];
    hide Respectful;
    EditsRespectful(steps[m..k], session);
  }

  lemma EchoingStep(steps: seq<Step>, i: nat, k: nat, record: nat)
    requires i < k < |steps|
    ensures Echoing(steps, i, k + 1, record) <==>
            && Echoing(steps, i, k, record)
            && (steps[k].Reply? && steps[k].record == record && steps[k].outcome.Succeeded? ==>
                  record in At(steps, k).calls && EchoedBy(At(steps, k).calls[record].requested, steps[k].outcome))
  {
    hide At;
  }

  /** A step that is no reply to the record. */
  lemma PassingAccount(steps: seq<Step>, i: nat, k: nat, session: Session)
    requires Opens(steps, i, session) && i < k < |steps| && Accounted(steps, i, k, session)
    requires Invariant(At(steps, k)) && session in At(steps, k + 1).pending
    requires steps[k].Reply? ==> steps[k].record != At(steps, i).nextRecord
    ensures Accounted(steps, i, k + 1, session)
  {
    var record := At(steps, i).nextRecord;
    var s := At(steps, k);
    var m := Unsent(steps, i, k, record);
    var sent, queued := EditsOf(steps[i..m], session), EditsOf(steps[m..k], session);
    var replies, echoing := Replies(steps[i..k], record), Allowed(steps) && Echoing(steps, i, k, record);
    AtNext(steps, k);
    EditsSnoc(steps, m, k, session);
    RepliesSnoc(steps, i, k, record);
    EchoingStep(steps, i, k, record);
    hide At, EditsOf, Replies, Echoing, Allowed;
    assert s.disposed ==> session !in s.pending;
    hide Holds, Invariant, Update, Settle;
    if steps[k].Edit? && steps[k].session == session {
      EditHolds(s, record, session, steps[i].base, sent, queued, replies, echoing, steps[k].base, steps[k].transform);
    } else {
      assert queued + [] == queued;
      OtherHolds(s, record, session, steps[i].base, sent, queued, replies, echoing, steps[k]);
    }
  }

  lemma ReplyAccount(steps: seq<Step>, i: nat, k: nat, session: Session)
    requires Opens(steps, i, session) && i < k < |steps| && Accounted(steps, i, k, session)
    requires Invariant(At(steps, k)) && session in At(steps, k + 1).pending
    requires steps[k].Reply? && steps[k].record == At(steps, i).nextRecord
    ensures Accounted(steps, i, k + 1, session)
  {
    var record := At(steps, i).nextRecord;
    var s := At(steps, k);
    var m := Unsent(steps, i, k, record);
    var sent, queued := EditsOf(steps[i..m], session), EditsOf(steps[m..k], session);
    var replies, echoing := Replies(steps[i..k], record), Allowed(steps) && Echoing(steps, i, k, record);
    AtNext(steps, k);
    SentAll(steps, i, m, k, session);
    RepliesSnoc(steps, i, k, record);
    EchoingStep(steps, i, k, record);
    hide At, EditsOf, Replies, Echoing;
    assert s.disposed ==> session !in s.pending;
    assert record in s.calls;
    hide Holds, Invariant, Settle, Respectful, Fold;
    if echoing {
      QueuedRespectful(steps, m, k, session);
    }
    hide Allowed;
    ReplyHolds(s, record, session, steps[i].base, sent, queued, replies, echoing, steps[k].outcome);
  }

  lemma SentAll(steps: seq<Step>, i: nat, m: nat, k: nat, session: Session)
    requires i <= m <= k < |steps| && steps[k].Reply?
    ensures EditsOf(steps[i..k + 1], session) == EditsOf(steps[i..m], session) + EditsOf(steps[m..k], session)
    ensures EditsOf(steps[k + 1..k + 1], session) == []
  {
    EditsSplit(steps, i, m, k, session);
    EditsSnoc(steps, i, k, session);
  }

  lemma AccountNext(steps: seq<Step>, i: nat, k: nat, session: Session)
    requires Opens(steps, i, session) && i < k < |steps| && Accounted(steps, i, k, session)
    requires session in At(steps, k + 1).pending
    ensures Accounted(steps, i, k + 1, session)
  {
    RunInvariant(steps[..k]);
    hide Accounted, Run, Invariant, Opens;
    assert Invariant(At(steps, k));
    hide At;
    if steps[k].Reply? && steps[k].record == At(steps, i).nextRecord {
      ReplyAccount(steps, i, k, session);
    } else {
      PassingAccount(steps, i, k, session);
    }
  }

  lemma {:induction false} AccountKept(steps: seq<Step>, i: nat, k: nat, session: Session)
    requires OpenFrom(steps, i, k, session)
    ensures Accounted(steps, i, k, session)
    decreases k
  {
    hide Accounted, At, Opens;
    if k == i + 1 {
      FirstAccount(steps, i, session);
    } else {
      AccountKept(steps, i, k - 1, session);
      AccountNext(steps, i, k - 1, session);
    }
  }

  /** What a record asks for while it is open, in every interleaving of edits, replies, failures
      and disposal. It has one call in flight; with echoing answers the provider shown as desired
      is the in-order fold of all edits of the session since the record was opened, and the one
      in flight the fold of those made before the last reply; and there are more edits than
      replies. */
  lemma EditsFoldInOrder(steps: seq<Step>, i: nat, k: nat, session: Session)
    requires OpenFrom(steps, i, k, session)
    ensures var s := At(steps, k);
            var record := At(steps, i).nextRecord;
            var unsent := Unsent(steps, i, k, record);
            && OneCallPerSession(s)
            && record in s.calls && s.calls[record].session == session
            && s.pending[session].desired == Fold(s.calls[record].requested, EditsOf(steps[unsent..k], session))
            && Replies(steps[i..k], record) < |EditsOf(steps[i..unsent], session)|
            && (Allowed(steps) && Echoing(steps, i, k, record) ==>
                  && s.calls[record].requested.config == Fold(steps[i].base, EditsOf(steps[i..unsent], session)).config
                  && s.pending[session].desired.config == Fold(steps[i].base, EditsOf(steps[i..k], session)).config)
  {
    AccountKept(steps, i, k, session);
    RunInvariant(steps[..k]);
    var record := At(steps, i).nextRecord;
    var m := Unsent(steps, i, k, record);
    hide Run, Opens, OpenFrom, Echoing, Respectful;
    if Allowed(steps) && Echoing(steps, i, k, record) {
      EditsSplit(steps, i, m, k, session);
      QueuedRespectful(steps, m, k, session);
      FoldConcat(steps[i].base, EditsOf(steps[i..m], session), EditsOf(steps[m..k], session));
      FoldRespects(At(steps, k).calls[record].requested, Fold(steps[i].base, EditsOf(steps[i..m], session)), EditsOf(steps[m..k], session));
    }
  }

  /** What the next reply to an open record does. An answer is committed; it closes the record
      exactly when no edit was made since the last reply, and then, with echoing answers, it is the
      in-order fold of every edit since the record was opened, whatever failed in between; otherwise
      those edits are applied to the answer and sent. A failure is reported and closes the record
      exactly when the desired provider is still the one that was sent; otherwise that is sent. */
  lemma EditsCommitInOrder(steps: seq<Step>, i: nat, k: nat, session: Session, outcome: Outcome)
    requires OpenFrom(steps, i, k, session)
    ensures var s := At(steps, k);
            var record := At(steps, i).nextRecord;
            var next := Next(s, Reply(record, outcome));
            var queued := EditsOf(steps[Unsent(steps, i, k, record)..k], session);
            && record in s.calls
            && var answer := Answer(if outcome.Succeeded? then outcome.provider else None, s.calls[record].requested);
               && (outcome.Succeeded? ==>
                     && (session in next.pending <==> queued != [])
                     && next.effects == s.effects + [Committed(session, answer)] +
                          (if queued == [] then [] else [Configured(session, Fold(answer, queued))])
                     && (queued == [] && Allowed(steps) && Echoing(steps, i, k, record) &&
                         answer.config == s.calls[record].requested.config ==>
                           answer.config == Fold(steps[i].base, EditsOf(steps[i..k], session)).config))
               && (outcome.Failed? ==>
                     var desired := Fold(s.calls[record].requested, queued);
                     && (session in next.pending <==> desired.ref != s.calls[record].requested.ref)
                     && next.effects == s.effects +
                          [if desired.ref != s.calls[record].requested.ref then Configured(session, desired) else Reported(session)])
               && (session in next.pending ==> record in next.calls)
               && (forall other | other != session ::
                     (other in next.pending <==> other in s.pending) &&
                     (other in s.pending ==> next.pending[other] == s.pending[other]))
  {
    AccountKept(steps, i, k, session);
    RunInvariant(steps[..k]);
    EditsFoldInOrder(steps, i, k, session);
    var record := At(steps, i).nextRecord;
    var s := At(steps, k);
    var queued := EditsOf(steps[Unsent(steps, i, k, record)..k], session);
    assert Fold(s.calls[record].requested, []) == s.calls[record].requested;
    hide Run, Opens, OpenFrom, Echoing, Allowed, EditsOf, At;
    assert s.disposed ==> session !in s.pending;
    hide Fold, Invariant;
  }

  /** An edit of an idle session opens a record, and nothing but a reply to that record or the
      disposal closes it. */
  lemma {:induction false} StaysOpen(steps: seq<Step>, i: nat, k: nat, session: Session)
    requires Opens(steps, i, session) && i < k <= |steps|
    requires forall j | i < j < k :: !steps[j].Close? && (steps[j].Reply? ==> steps[j].record != At(steps, i).nextRecord)
    ensures OpenFrom(steps, i, k, session)
    decreases k
  {
    if k == i + 1 {
      FirstAccount(steps, i, session);
    } else {
      hide At, Opens;
      StaysOpen(steps, i, k - 1, session);
      OpenNext(steps, i, k - 1, session);
    }
  }

  lemma OpenNext(steps: seq<Step>, i: nat, k: nat, session: Session)
    requires OpenFrom(steps, i, k, session) && k < |steps| && !steps[k].Close?
    requires steps[k].Reply? ==> steps[k].record != At(steps, i).nextRecord
    ensures session in At(steps, k + 1).pending
  {
    AccountKept(steps, i, k, session);
    RunInvariant(steps[..k]);
    AtNext(steps, k);
    hide Run, Fold, Opens, EditsOf, Replies, OpenFrom, Invariant, Next;
    StillPending(At(steps, k), steps[k], session);
  }

  lemma StillPending(s: State, step: Step, session: Session)
    requires Invariant(s) && session in s.pending && !step.Close?
    requires step.Reply? ==> step.record != s.pending[session].record
    ensures session in Next(s, step).pending
  {
    assert PendingOk(s, session);
    assert step.Reply? && step.record in s.calls ==> CallOk(s, step.record);
    hide Fold;
  }

  /** The callbacks are made for nothing else: an edit that opens a record sends it edited once,
      and every other step but a reply to a call in flight makes none. */
  lemma CallbacksOnlyFor(steps: seq<Step>, k: nat)
    requires k < |steps|
    ensures var before, after := At(steps, k), At(steps, k + 1);
            match steps[k]
            case Edit(session, base, t) =>
              after.effects == before.effects + (if Opens(steps, k, session) then [Configured(session, t.apply(base))] else [])
            case Reply(record, _) =>
              after.effects != before.effects ==>
                !before.disposed && record in before.calls && before.calls[record].session in before.pending &&
                before.pending[before.calls[record].session].record == record
            case Close => after.effects == before.effects && after.disposed && after.pending == map[]
  {
    AtNext(steps, k);
    RunInvariant(steps[..k]);
    hide Run, Fold;
  }

  // ---------- The controller ----------

  /** `ProviderConfigurationController`; `effects` records its callbacks. */
  class Controller {
    var pending: map<Session, Pending>
    var calls: map<nat, Call>
    var nextRecord: nat
    var disposed: bool
    var effects: seq<Effect>

    constructor ()
      ensures Snapshot() == IDLE
    {
      pending, calls, nextRecord, disposed, effects := map[], map[], 0, false, [];
    }

    function Snapshot(): State
      reads this
    {
      State(pending, calls, nextRecord, disposed, effects)
    }

    method EditProvider(session: Session, base: Provider, transform: Transform)
      modifies this
      ensures Snapshot() == Update(old(Snapshot()), session, base, transform)
    {
      if disposed { return; }
      var running := session in pending;
      if !running {
        pending := pending[session := Pending(nextRecord, base, [])];
        nextRecord := nextRecord + 1;
      }
      var p := pending[session];
      pending := pending[session := p.(
        desired := transform.apply(p.desired),
        transforms := if running then p.transforms + [transform] else p.transforms)];
      if !running { StartCall(session); }
    }

    method StartCall(session: Session)
      requires session in pending
      modifies this
      ensures Snapshot() == Send(old(Snapshot()), session)
    {
      var p := pending[session];
      pending := pending[session := p.(transforms := [])];
      calls := calls[p.record := Call(session, p.desired)];
      effects := effects + [Configured(session, p.desired)];
    }

    method Settled(record: nat, outcome: Outcome)
      modifies this
      ensures Snapshot() == Settle(old(Snapshot()), record, outcome)
    {
      if record !in calls { return; }
      var Call(session, requested) := calls[record];
      calls := calls - {record};
      if disposed || session !in pending || pending[session].record != record { return; }
      var p := pending[session];
      match outcome
      case Succeeded(reply) =>
        var provider := if reply.Some? then reply.value else requested;
        effects := effects + [Committed(session, provider)];
        if |p.transforms| > 0 {
          var desired := ApplyTransforms(provider, p.transforms);
          pending := pending[session := p.(desired := desired)];
          StartCall(session);
        } else {
          pending := pending - {session};
        }
      case Failed =>
        if p.desired.ref != requested.ref {
          StartCall(session);
        } else {
          pending := pending - {session};
          effects := effects + [Reported(session)];
        }
    }

    method DisposeAll()
      modifies this
      ensures Snapshot() == Dispose(old(Snapshot()))
    {
      if disposed { return; }
      disposed := true;
      pending := map[];
    }
  }
}
