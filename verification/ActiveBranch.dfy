/** The active branch of the selected session: in every reachable cache it is a
    duplicate-free chain of display parents, and the walk that renders it gives
    it back whole. */
module ActiveBranch {
  import opened CodeUnits
  import opened Collections
  import opened Transcript
  import opened SelectedSessionCache
  import TurnCards
  import TurnPages
  import TurnDetails

  /** Transcript rows under their ids; display parents lead to lower ranks, so never in a circle. */
  ghost predicate Forest(rows: map<Id, Entry>, rank: map<Id, nat>) {
    forall id | id in rows ::
      && rows[id].id == id && id in rank
      && var parent := DisplayParent(rows[id]);
         parent.Some? && parent.value in rows ==> parent.value in rank && rank[parent.value] < rank[id]
  }

  /** Each row after the first hangs below the one before it. */
  ghost predicate Chain(rows: map<Id, Entry>, ids: seq<Id>) {
    && (forall i | 0 <= i < |ids| :: ids[i] in rows)
    && (forall i | 0 < i < |ids| :: DisplayParent(rows[ids[i]]) == Some(ids[i - 1]))
  }

  lemma {:induction false} RanksGrow(rows: map<Id, Entry>, rank: map<Id, nat>, ids: seq<Id>, i: nat, j: nat)
    requires Forest(rows, rank) && Chain(rows, ids) && i < j < |ids|
    ensures ids[i] in rank && ids[j] in rank && rank[ids[i]] < rank[ids[j]]
    decreases j
  {
    assert ids[j] in rows && ids[j - 1] in rows && DisplayParent(rows[ids[j]]) == Some(ids[j - 1]);
    assert rows[ids[j]].id == ids[j] && rows[ids[j - 1]].id == ids[j - 1];
    if i < j - 1 {
      RanksGrow(rows, rank, ids, i, j - 1);
    }
  }

  lemma ChainDistinct(rows: map<Id, Entry>, rank: map<Id, nat>, ids: seq<Id>)
    requires Forest(rows, rank) && Chain(rows, ids)
    ensures Distinct(ids)
  {
    forall i, j | 0 <= i < j < |ids|
      ensures ids[i] != ids[j]
    {
      RanksGrow(rows, rank, ids, i, j);
    }
  }

  lemma ChainSnoc(rows: map<Id, Entry>, ids: seq<Id>, id: Id)
    requires Chain(rows, ids) && id in rows && (ids != [] ==> DisplayParent(rows[id]) == Last(ids))
    ensures Chain(rows, ids + [id])
  {
  }

  // ---------- Steps ----------

  datatype Step =
    | FromServer(step: TurnPages.Step)
    | EventArrives(event: AppendEvent)
    | DetailArrives(sessionId: SessionId, turnId: Id, entries: seq<Entry>)

  ghost function Apply(cache: Cache, step: Step): Cache {
    match step
    case FromServer(update) => TurnPages.Apply(cache, update)
    case EventArrives(event) => ApplyAppended(cache, event).0
    case DetailArrives(sessionId, turnId, entries) => TurnDetails.ApplyTurnDetail(cache, sessionId, turnId, entries).0
  }

  ghost function Run(cache: Cache, steps: seq<Step>): Cache {
    if steps == [] then cache else Apply(Run(cache, steps[..|steps| - 1]), steps[|steps| - 1])
  }

  ghost predicate IsRow(rows: map<Id, Entry>, id: Option<Id>) { id.Some? ==> id.value in rows }

  /** The entries of a branch, as rows of one chain. */
  ghost predicate BranchRows(rows: map<Id, Entry>, entries: seq<Entry>) {
    AreRows(rows, entries) && Chain(rows, EntryIds(entries))
  }

  /** The daemon sends rows, and branches where it promises a branch. A live event may
      carry any row, in any order. */
  ghost predicate Allowed(rows: map<Id, Entry>, step: Step) {
    match step
    case FromServer(SnapshotArrives(snapshot)) =>
      BranchRows(rows, OrElse(snapshot.entries, [])) && IsRow(rows, snapshot.activeLeafId)
    case FromServer(BodiesArrive(_, entries)) => AreRows(rows, entries)
    case FromServer(SyncArrives(sync)) => AreRows(rows, sync.entries)
    case FromServer(SwitchArrives(result)) =>
      && AreRows(rows, OrElse(result.entries, []))
      && (if result.ids.Some? then Chain(rows, result.ids.value) else BranchRows(rows, OrElse(result.entries, [])))
    case FromServer(PageArrives(page, _)) =>
      && IsRow(rows, page.activeLeafId)
      && forall i | 0 <= i < |page.cards| :: AreRows(rows, TurnPages.CardEntries(page.cards[i]))
    case EventArrives(event) => event.entry.Some? ==> AreRows(rows, [event.entry.value])
    case DetailArrives(_, _, entries) => AreRows(rows, entries)
  }

  ghost predicate Inv(rows: map<Id, Entry>, cache: Cache) {
    Chain(rows, cache.activeBranchEntryIds) && Rows(rows, cache.entriesById)
  }

  /** Appending fetched entries keeps the chain, whichever of them are known already. */
  lemma {:induction false} AppendBranchChain(rows: map<Id, Entry>, current: seq<Id>, byId: map<Id, Entry>, entries: seq<Entry>)
    requires Chain(rows, current) && AreRows(rows, entries)
    ensures var ids := AppendBranch(current, byId, entries); ids.Some? ==> Chain(rows, ids.value) && current <= ids.value
    decreases |entries|
  {
    if entries != [] {
      var entry := entries[0];
      assert entry.id in rows && rows[entry.id] == entry;
      assert AreRows(rows, entries[1..]);
      if entry.id in current {
        AppendBranchChain(rows, current, byId, entries[1..]);
      } else if DisplayParentIn(entry, byId) == Last(current) {
        ChainSnoc(rows, current, entry.id);
        AppendBranchChain(rows, current + [entry.id], byId, entries[1..]);
      }
    }
  }

  lemma {:induction false} CardsKeepRows(rows: map<Id, Entry>, byId: map<Id, Entry>, cards: seq<TurnCard>)
    requires Rows(rows, byId)
    requires forall i | 0 <= i < |cards| :: AreRows(rows, TurnPages.CardEntries(cards[i]))
    ensures Rows(rows, TurnPages.IncomingCards(byId, cards).entriesById)
  {
    if cards != [] {
      var n := |cards| - 1;
      CardsKeepRows(rows, byId, cards[..n]);
      MergeRows(rows, TurnPages.IncomingCards(byId, cards[..n]).entriesById, TurnPages.CardEntries(cards[n]));
    }
  }

  lemma SnapshotKeeps(rows: map<Id, Entry>, cache: Cache, snapshot: Snapshot)
    requires Inv(rows, cache) && BranchRows(rows, OrElse(snapshot.entries, [])) && IsRow(rows, snapshot.activeLeafId)
    ensures Inv(rows, ApplySelectedSnapshot(cache, snapshot))
  {
    var entries := OrElse(snapshot.entries, []);
    MergeRows(rows, cache.entriesById, entries);
    MergeRows(rows, map[], entries);
    hide MergeEntryBodies, SelectedEntries, EntryIds, AreRows, TurnCards.IdsOf;
  }

  lemma SyncKeeps(rows: map<Id, Entry>, cache: Cache, sync: Sync)
    requires Inv(rows, cache) && AreRows(rows, sync.entries)
    ensures Inv(rows, ApplySync(cache, sync).0)
  {
    MergeRows(rows, cache.entriesById, sync.entries);
    AppendBranchChain(rows, cache.activeBranchEntryIds, MergeEntryBodies(cache.entriesById, sync.entries), sync.entries);
    hide MergeEntryBodies, SelectedEntries, AppendBranch, AreRows, TurnCards.IdsOf, Chain;
  }

  lemma SwitchKeeps(rows: map<Id, Entry>, cache: Cache, result: SwitchResult)
    requires Inv(rows, cache) && Allowed(rows, FromServer(TurnPages.SwitchArrives(result)))
    ensures Inv(rows, ApplySwitch(cache, result))
  {
    MergeRows(rows, cache.entriesById, OrElse(result.entries, []));
    hide MergeEntryBodies, SelectedEntries, EntryIds, AreRows, TurnCards.IdsOf, Chain;
  }

  lemma EventKeeps(rows: map<Id, Entry>, cache: Cache, event: AppendEvent)
    requires Inv(rows, cache) && Allowed(rows, EventArrives(event))
    ensures Inv(rows, ApplyAppended(cache, event).0)
  {
    hide SelectedEntries, TurnCards.AppendTurnCard, DetailsAfter, EventSnapshot;
    if event.entry.Some? {
      var entry := event.entry.value;
      assert [entry][0] == entry;
      assert entry.id in rows && rows[entry.id] == entry;
      if DisplayParent(entry) == Last(cache.activeBranchEntryIds) {
        ChainSnoc(rows, cache.activeBranchEntryIds, entry.id);
      }
      hide Chain;
    }
  }

  lemma PageKeeps(rows: map<Id, Entry>, cache: Cache, page: TurnPages.TurnsPage, mode: TurnPages.Mode)
    requires Inv(rows, cache) && Allowed(rows, FromServer(TurnPages.PageArrives(page, mode)))
    ensures Inv(rows, TurnPages.ApplyTranscriptTurns(cache, page, mode))
  {
    CardsKeepRows(rows, cache.entriesById, page.cards);
    assert Chain(rows, TurnPages.PageBranch(page));
    hide TurnPages.IncomingCards, TurnPages.CardsAfter, TurnPages.KeptDetails, SelectedEntries, Chain, AreRows;
  }

  lemma StepKeeps(rows: map<Id, Entry>, cache: Cache, step: Step)
    requires Inv(rows, cache) && Allowed(rows, step)
    ensures Inv(rows, Apply(cache, step))
  {
    hide Chain, Rows, AreRows, ApplySelectedSnapshot, ApplySync, ApplySwitch, ApplyAppended, TurnPages.ApplyTranscriptTurns;
    match step
    case FromServer(SnapshotArrives(snapshot)) => SnapshotKeeps(rows, cache, snapshot);
    case FromServer(BodiesArrive(_, entries)) => MergeRows(rows, cache.entriesById, entries);
    case FromServer(SyncArrives(sync)) => SyncKeeps(rows, cache, sync);
    case FromServer(SwitchArrives(result)) => SwitchKeeps(rows, cache, result);
    case FromServer(PageArrives(page, mode)) => PageKeeps(rows, cache, page, mode);
    case EventArrives(event) => EventKeeps(rows, cache, event);
    case DetailArrives(_, _, entries) => MergeRows(rows, cache.entriesById, entries);
  }

  lemma {:induction false} RunKeeps(rows: map<Id, Entry>, cache: Cache, steps: seq<Step>)
    requires Inv(rows, cache) && forall i | 0 <= i < |steps| :: Allowed(rows, steps[i])
    ensures Inv(rows, Run(cache, steps))
  {
    if steps != [] {
      var n := |steps| - 1;
      RunKeeps(rows, cache, steps[..n]);
      StepKeeps(rows, Run(cache, steps[..n]), steps[n]);
    }
  }

  /** The branch is without duplicates, and every cached row on it hangs below the one before. */
  ghost predicate WellLinked(ids: seq<Id>, byId: map<Id, Entry>) {
    && Distinct(ids)
    && forall i | 0 < i < |ids| && ids[i] in byId :: DisplayParent(byId[ids[i]]) == Some(ids[i - 1])
  }

  lemma BranchAlwaysWellLinked(rows: map<Id, Entry>, rank: map<Id, nat>, sessionId: Option<SessionId>, steps: seq<Step>)
    requires Forest(rows, rank) && forall i | 0 <= i < |steps| :: Allowed(rows, steps[i])
    ensures var cache := Run(EmptyCache(sessionId), steps);
            WellLinked(cache.activeBranchEntryIds, cache.entriesById) && TurnDetails.KeyedRows(cache.entriesById)
  {
    var cache := Run(EmptyCache(sessionId), steps);
    RunKeeps(rows, EmptyCache(sessionId), steps);
    ChainDistinct(rows, rank, cache.activeBranchEntryIds);
  }

  // ---------- The render walk ----------

  function EntryMap(entries: seq<Entry>): map<Id, Entry> {
    if entries == [] then map[]
    else EntryMap(entries[..|entries| - 1])[entries[|entries| - 1].id := entries[|entries| - 1]]
  }

  function Reversed<T>(s: seq<T>): seq<T> { if s == [] then [] else Reversed(s[1..]) + [s[0]] }

  /** From the cursor towards the root, stopping at a row that is missing or was visited. */
  function Walk(byId: map<Id, Entry>, cursor: Option<Id>, seen: set<Id>): seq<Entry>
    decreases |byId.Keys - seen|
  {
    if cursor.None? || cursor.value in seen || cursor.value !in byId then []
    else
      SmallerSet(byId.Keys - (seen + {cursor.value}), byId.Keys - seen);
      [byId[cursor.value]] + Walk(byId, DisplayParentIn(byId[cursor.value], byId), seen + {cursor.value})
  }

  function BranchEntries(entries: seq<Entry>, leaf: Option<Id>): seq<Entry> {
    Reversed(Walk(EntryMap(entries), leaf, {}))
  }

  method EntryMapLoop(entries: seq<Entry>) returns (byId: map<Id, Entry>)
    ensures byId == EntryMap(entries)
  {
    byId := map[];
    for i := 0 to |entries|
      invariant byId == EntryMap(entries[..i])
    {
      assert entries[..i + 1][..i] == entries[..i];
      byId := byId[entries[i].id := entries[i]];
    }
    assert entries[..|entries|] == entries;
  }

  /** `branchEntriesFor`; it ends for every list of entries, circular parents included. */
  method BranchEntriesFor(entries: seq<Entry>, leaf: Option<Id>) returns (branch: seq<Entry>)
    ensures branch == BranchEntries(entries, leaf)
  {
    if leaf.None? { return []; }
    var byId := EntryMapLoop(entries);
    var walked: seq<Entry> := [];
    var seen: set<Id> := {};
    var cursor := leaf;
    while cursor.Some? && cursor.value !in seen
      invariant Walk(byId, leaf, {}) == walked + Walk(byId, cursor, seen)
      decreases |byId.Keys - seen|
    {
      if cursor.value !in byId { break; }
      var entry := byId[cursor.value];
      SmallerSet(byId.Keys - (seen + {cursor.value}), byId.Keys - seen);
      walked := walked + [entry];
      seen := seen + {cursor.value};
      cursor := DisplayParentIn(entry, byId);
    }
    assert walked == Walk(byId, leaf, {});
    branch := Reversed(walked);
  }

  lemma {:induction false} SelectedAll(ids: seq<Id>, byId: map<Id, Entry>)
    requires forall i | 0 <= i < |ids| :: ids[i] in byId
    ensures |SelectedEntries(ids, byId)| == |ids|
    ensures forall i | 0 <= i < |ids| :: SelectedEntries(ids, byId)[i] == byId[ids[i]]
  {
    if ids != [] {
      SelectedAll(ids[1..], byId);
    }
  }

  lemma {:induction false} EntryMapOf(entries: seq<Entry>, byId: map<Id, Entry>)
    requires forall i | 0 <= i < |entries| :: entries[i].id in byId && byId[entries[i].id] == entries[i]
    ensures forall i | 0 <= i < |entries| :: entries[i].id in EntryMap(entries)
    ensures forall id | id in EntryMap(entries) :: id in byId && EntryMap(entries)[id] == byId[id]
    ensures forall id | id in EntryMap(entries) :: id in EntryIds(entries)
  {
    if entries != [] {
      var n := |entries| - 1;
      EntryMapOf(entries[..n], byId);
      assert EntryIds(entries) == EntryIds(entries[..n]) + [entries[n].id];
    }
  }

  lemma {:induction false} ReversedSnoc<T>(s: seq<T>, x: T)
    ensures Reversed([x] + s) == Reversed(s) + [x]
  {
    assert ([x] + s)[1..] == s;
  }

  /** With the rows above position `k` visited, the walk from there gives the rows up to it. */
  lemma {:induction false} WalkDown(ids: seq<Id>, byId: map<Id, Entry>, k: nat, seen: set<Id>)
    requires k < |ids| && WellLinked(ids, byId)
    requires forall i | 0 <= i < |ids| :: ids[i] in byId
    requires (forall i | k < i < |ids| :: ids[i] in seen) && (forall i | 0 <= i <= k :: ids[i] !in seen)
    requires forall id | id in byId :: id in ids
    ensures Reversed(Walk(byId, Some(ids[k]), seen)) == SelectedEntries(ids[..k + 1], byId)
  {
    assert ids[k] !in seen;
    var parent := DisplayParentIn(byId[ids[k]], byId);
    var visited := seen + {ids[k]};
    assert ids[..k + 1] == ids[..k] + [ids[k]];
    SelectedSnoc(ids[..k], ids[k], byId);
    ReversedSnoc(Walk(byId, parent, visited), byId[ids[k]]);
    if k == 0 {
      if parent.Some? {
        var id: Id := parent.value;
        assert id in byId;
        var i :| 0 <= i < |ids| && ids[i] == id;
        assert ids[i] in visited;
      }
      assert Walk(byId, parent, visited) == [];
    } else {
      assert parent == Some(ids[k - 1]);
      WalkDown(ids, byId, k - 1, visited);
    }
  }

  lemma {:induction false} SelectedSnoc(ids: seq<Id>, id: Id, byId: map<Id, Entry>)
    requires id in byId
    ensures SelectedEntries(ids + [id], byId) == SelectedEntries(ids, byId) + [byId[id]]
  {
    if ids != [] {
      assert (ids + [id])[1..] == ids[1..] + [id];
      SelectedSnoc(ids[1..], id, byId);
    }
  }

  /** The walk's own map of the selected entries is the cache, cut down to the branch. */
  lemma OwnMap(ids: seq<Id>, byId: map<Id, Entry>)
    requires TurnDetails.KeyedRows(byId) && forall i | 0 <= i < |ids| :: ids[i] in byId
    ensures var entries := SelectedEntries(ids, byId);
            var own := EntryMap(entries);
            && EntryIds(entries) == ids
            && (forall i | 0 <= i < |ids| :: ids[i] in own && own[ids[i]] == byId[ids[i]])
            && (forall id | id in own :: id in ids)
            && SelectedEntries(ids, own) == entries
  {
    var entries := SelectedEntries(ids, byId);
    SelectedAll(ids, byId);
    hide SelectedEntries, EntryMap;
    assert forall i | 0 <= i < |ids| :: entries[i].id == ids[i];
    assert EntryIds(entries) == ids;
    var own := EntryMap(entries);
    EntryMapOf(entries, byId);
    hide EntryIds;
    forall i | 0 <= i < |ids|
      ensures ids[i] in own && own[ids[i]] == byId[ids[i]]
    {
      assert entries[i].id == ids[i];
    }
    SelectedAll(ids, own);
  }

  /** When every body is cached, rendering the cached branch from its last id shows the branch. */
  lemma WalkShowsBranch(ids: seq<Id>, byId: map<Id, Entry>)
    requires WellLinked(ids, byId) && TurnDetails.KeyedRows(byId) && forall i | 0 <= i < |ids| :: ids[i] in byId
    ensures BranchEntries(SelectedEntries(ids, byId), Last(ids)) == SelectedEntries(ids, byId)
    ensures EntryIds(SelectedEntries(ids, byId)) == ids
  {
    OwnMap(ids, byId);
    if ids != [] {
      var own := EntryMap(SelectedEntries(ids, byId));
      hide SelectedEntries, EntryMap, EntryIds, DisplayParent, Walk, Reversed;
      assert WellLinked(ids, own);
      WalkDown(ids, own, |ids| - 1, {});
      assert ids[..|ids|] == ids;
    }
  }

  /** Whatever the entries, the walk lists each row once, every row below the one before it in
      the list. */
  lemma {:induction false} WalkIsPath(byId: map<Id, Entry>, cursor: Option<Id>, seen: set<Id>)
    requires TurnDetails.KeyedRows(byId)
    ensures var walked := Walk(byId, cursor, seen);
            && (forall i | 0 <= i < |walked| :: walked[i].id !in seen && walked[i].id in byId && byId[walked[i].id] == walked[i])
            && Distinct(EntryIds(walked))
            && (walked != [] ==> Some(walked[0].id) == cursor)
            && (forall i | 0 < i < |walked| :: DisplayParent(walked[i - 1]) == Some(walked[i].id))
    decreases |byId.Keys - seen|
  {
    if !(cursor.None? || cursor.value in seen || cursor.value !in byId) {
      var id := cursor.value;
      SmallerSet(byId.Keys - (seen + {id}), byId.Keys - seen);
      var parent := DisplayParentIn(byId[id], byId);
      WalkIsPath(byId, parent, seen + {id});
      var rest := Walk(byId, parent, seen + {id});
      var walked := Walk(byId, cursor, seen);
      assert walked == [byId[id]] + rest;
      assert forall i | 0 < i < |walked| :: walked[i] == rest[i - 1] && EntryIds(walked)[i] == EntryIds(rest)[i - 1];
    }
  }

  /** In every reachable cache whose branch bodies are all cached, the walk shows the branch. */
  lemma ReachableBranchIsShown(rows: map<Id, Entry>, rank: map<Id, nat>, sessionId: Option<SessionId>, steps: seq<Step>)
    requires Forest(rows, rank) && forall i | 0 <= i < |steps| :: Allowed(rows, steps[i])
    ensures var cache := Run(EmptyCache(sessionId), steps);
            var ids := cache.activeBranchEntryIds;
            var shown := BranchEntries(SelectedEntries(ids, cache.entriesById), Last(ids));
            (forall i | 0 <= i < |ids| :: ids[i] in cache.entriesById) ==> EntryIds(shown) == ids
  {
    var cache := Run(EmptyCache(sessionId), steps);
    BranchAlwaysWellLinked(rows, rank, sessionId, steps);
    if forall i | 0 <= i < |cache.activeBranchEntryIds| :: cache.activeBranchEntryIds[i] in cache.entriesById {
      WalkShowsBranch(cache.activeBranchEntryIds, cache.entriesById);
    }
  }

  // ---------- A loaded detail that falls behind ----------

  function LiveEvent(entry: Entry): Step {
    EventArrives(AppendEvent(0, entry.id, Some(entry), None, None, None, Some(entry.id)))
  }

  const STARTED: Entry := Entry(1, None, 10, Some(1), TurnStarted(7))
  const FINISHED: Entry := Entry(2, Some(1), 20, Some(2), TurnFinished(7, Graceful))
  const SUMMARY: Entry := Entry(3, Some(2), 30, Some(3), CompactionSummary(Some(2), 7, None))
  const STRAY: Entry := Entry(4, Some(3), 40, Some(4), UserMessage(false))

  /** A snapshot of an empty session, a turn that starts, its detail, and its finish. */
  const EXPANDED_TURN: seq<Step> := [
    FromServer(TurnPages.SnapshotArrives(Snapshot(0, None, None, None, None, 0, false, None))),
    LiveEvent(STARTED),
    DetailArrives(0, 1, [STARTED]),
    LiveEvent(FINISHED)]

  lemma RunSnoc(cache: Cache, steps: seq<Step>, step: Step)
    ensures Run(cache, steps + [step]) == Apply(Run(cache, steps), step)
  {
    assert (steps + [step])[..|steps|] == steps;
  }

  /** The parts of a cache the example is about. */
  ghost predicate Shows(cache: Cache, ids: seq<Id>, cards: TurnCards.Cards, details: map<Id, seq<Id>>) {
    && cache.sessionId == Some(0) && cache.snapshot.Some? && cache.activeBranchEntryIds == ids
    && cache.cards == cards && cache.turnDetailsById == details
  }

  function OpenCard(): TurnCard { TurnCards.UpdateTurnCard(TurnCards.InitialTurnCard(STARTED), STARTED) }

  function OpenCards(): TurnCards.Cards { TurnCards.Cards(map[1 := OpenCard()], [1]) }

  lemma EmptySession()
    ensures Shows(Apply(EmptyCache(Some(0)), EXPANDED_TURN[0]), [], TurnCards.NO_CARDS, map[])
  {
  }

  lemma TurnOpens(cache: Cache)
    requires Shows(cache, [], TurnCards.NO_CARDS, map[])
    ensures Shows(Apply(cache, LiveEvent(STARTED)), [1], OpenCards(), map[])
  {
    TurnDetails.AfterFields(cache, LiveEvent(STARTED).event);
    var nothing: seq<Id> := [];
    assert nothing + [1] == [1];
    hide TurnCards.UpdateTurnCard, SelectedEntries, EventSnapshot;
    assert TurnCards.StableId(OpenCard()) == 1 by {
      OpenCardFacts();
    }
    OpenCardFacts();
  }

  lemma OpenCardFacts()
    ensures var card := OpenCard();
            && card.id == 1 && TurnCards.StableId(card) == 1 && card.startEntryId == Some(1) && card.status == Open
            && card.activeLeafId == 1
  {
  }

  lemma DetailLoads(cache: Cache)
    requires Shows(cache, [1], OpenCards(), map[])
    ensures Shows(Apply(cache, EXPANDED_TURN[2]), [1], OpenCards(), map[1 := [1]])
  {
    OpenCardFacts();
    assert EntryIds([STARTED]) == [1];
    hide MergeEntryBodies, OpenCard, EntryIds;
  }

  lemma OpenCardsFiled()
    ensures TurnCards.Filed(OpenCards(), {1}) && TurnDetails.Updates(OpenCards(), {1}, FINISHED.item)
    ensures TurnCards.LastCard(OpenCards(), {1}) == OpenCard()
  {
    OpenCardFacts();
    assert OpenCards().order[0] == 1 && 1 in OpenCards().order;
    hide OpenCard, TurnCards.StableId;
  }

  lemma FinishedCard()
    ensures var card := TurnCards.UpdateTurnCard(OpenCard(), FINISHED); card.status == Completed && TurnCards.StableId(card) == 2
  {
  }

  lemma FinishedCards()
    ensures var cards := TurnCards.AppendTurnCard(OpenCards(), FINISHED);
            && cards.order == [2] && TurnCards.Filed(cards, {1, 2})
            && TurnCards.LastCard(cards, {1, 2}).status == Completed
  {
    OpenCardsFiled();
    FinishedCard();
    hide OpenCard, TurnCards.UpdateTurnCard, TurnCards.StableId, TurnCards.Filed, TurnDetails.Updates;
    TurnDetails.UpdatedCards(OpenCards(), {1}, FINISHED);
    TurnDetails.AppendFiled(OpenCards(), {1}, FINISHED);
    assert {1} + {2} == {1, 2};
    hide TurnCards.AppendTurnCard;
  }

  lemma TurnFinishes(cache: Cache)
    requires Shows(cache, [1], OpenCards(), map[1 := [1]])
    ensures var next := Apply(cache, LiveEvent(FINISHED));
            && next.sessionId == Some(0) && next.snapshot.Some? && next.activeBranchEntryIds == [1, 2]
            && next.cards.order == [2] && TurnCards.Filed(next.cards, {1, 2})
            && TurnCards.LastCard(next.cards, {1, 2}).status == Completed
            && next.turnDetailsById.Keys <= {1, 2}
            && TurnDetails.Covers(next, 2) && next.turnDetailsById[2] == [1, 2]
  {
    CardFinishes(cache);
    DetailFinishes(cache);
    hide ApplyAppended, TurnDetails.After, TurnDetails.Covers, TurnCards.Filed, OpenCards;
    StaysOpen(cache, LiveEvent(FINISHED).event);
  }

  lemma CardFinishes(cache: Cache)
    requires Shows(cache, [1], OpenCards(), map[1 := [1]])
    ensures var next := TurnDetails.After(cache, LiveEvent(FINISHED).event);
            && next.activeBranchEntryIds == [1, 2] && next.cards.order == [2] && TurnCards.Filed(next.cards, {1, 2})
            && TurnCards.LastCard(next.cards, {1, 2}).status == Completed
  {
    var event := LiveEvent(FINISHED).event;
    FinishedCards();
    assert TurnDetails.Continues(cache, event);
    TurnDetails.AfterFields(cache, event);
    hide TurnCards.AppendTurnCard, TurnDetails.After, DetailsAfter, TurnCards.Filed, OpenCard;
    assert [1] + [2] == [1, 2];
  }

  lemma DetailFinishes(cache: Cache)
    requires Shows(cache, [1], OpenCards(), map[1 := [1]])
    ensures var next := TurnDetails.After(cache, LiveEvent(FINISHED).event);
            next.turnDetailsById.Keys <= {1, 2} && TurnDetails.Covers(next, 2) && next.turnDetailsById[2] == [1, 2]
  {
    var event := LiveEvent(FINISHED).event;
    OpenCardFacts();
    OpenCardsFiled();
    FollowsToTwo();
    assert TurnDetails.Covers(cache, 1) && TurnDetails.DetailSeen(cache, 1, {1}) && TurnDetails.Continues(cache, event);
    hide TurnCards.AppendTurnCard, TurnDetails.After, DetailsAfter, TurnCards.Filed, OpenCard, TurnDetails.Updates;
    TurnDetails.LastDetailStep(cache, {1}, event);
    TurnDetails.DetailKeysGrow(cache, {1}, event);
    assert {1} + {2} == {1, 2};
    assert [1] + [2] == [1, 2];
  }

  lemma FollowsToTwo()
    ensures TurnDetails.Follow(OpenCards(), FINISHED, 1) == 2
  {
    OpenCardsFiled();
    FinishedCard();
    hide OpenCard, TurnCards.UpdateTurnCard, TurnCards.StableId, TurnCards.Filed, TurnDetails.Updates;
    TurnDetails.UpdatedCards(OpenCards(), {1}, FINISHED);
    hide TurnCards.AppendTurnCard;
  }

  lemma StaysOpen(cache: Cache, event: AppendEvent)
    ensures var next := ApplyAppended(cache, event).0;
            next.sessionId == cache.sessionId && (next.snapshot.Some? <==> cache.snapshot.Some?)
    ensures ApplyAppended(cache, event).0 == TurnDetails.After(cache, event)
  {
    hide TurnCards.AppendTurnCard, DetailsAfter, SelectedEntries, EventSnapshot;
  }

  /** A run from the empty cache after which a loaded detail has fallen behind its card. */
  lemma DetailFallsBehind()
    ensures var cache := Run(EmptyCache(Some(0)), EXPANDED_TURN);
            var end := Run(EmptyCache(Some(0)), EXPANDED_TURN + [LiveEvent(SUMMARY)] + [LiveEvent(STRAY)]);
            && TurnDetails.Covers(cache, 2)
            && exists id :: id in end.cards.byId && end.cards.byId[id].activeLeafId == 4 && !TurnDetails.Covers(end, id)
  {
    var empty := EmptyCache(Some(0));
    var steps := EXPANDED_TURN;
    hide Apply, Run;
    EmptySession();
    assert steps == [] + [steps[0]] + [steps[1]] + [steps[2]] + [steps[3]];
    RunSnoc(empty, [], steps[0]);
    RunSnoc(empty, [] + [steps[0]], steps[1]);
    RunSnoc(empty, [] + [steps[0]] + [steps[1]], steps[2]);
    RunSnoc(empty, [] + [steps[0]] + [steps[1]] + [steps[2]], steps[3]);
    RunNothing(empty);
    TurnOpens(Run(empty, [] + [steps[0]]));
    DetailLoads(Run(empty, [] + [steps[0]] + [steps[1]]));
    TurnFinishes(Run(empty, [] + [steps[0]] + [steps[1]] + [steps[2]]));
    var cache := Run(empty, steps);
    RunSnoc(empty, steps, LiveEvent(SUMMARY));
    RunSnoc(empty, steps + [LiveEvent(SUMMARY)], LiveEvent(STRAY));
    FallsBehind(cache);
  }

  lemma RunNothing(cache: Cache)
    ensures Run(cache, []) == cache
  {
  }

  lemma FallsBehind(cache: Cache)
    requires cache.sessionId == Some(0) && cache.snapshot.Some? && cache.activeBranchEntryIds == [1, 2]
    requires cache.cards.order == [2] && TurnCards.Filed(cache.cards, {1, 2})
    requires TurnCards.LastCard(cache.cards, {1, 2}).status == Completed
    requires cache.turnDetailsById.Keys <= {1, 2}
    requires TurnDetails.Covers(cache, 2) && cache.turnDetailsById[2] == [1, 2]
    ensures var end := Apply(Apply(cache, LiveEvent(SUMMARY)), LiveEvent(STRAY));
            exists id :: id in end.cards.byId && end.cards.byId[id].activeLeafId == 4 && !TurnDetails.Covers(end, id)
  {
    var summary, stray := LiveEvent(SUMMARY).event, LiveEvent(STRAY).event;
    TurnDetails.AfterFields(cache, summary);
    assert TurnDetails.DetailSeen(cache, 2, {1, 2});
    hide TurnCards.Filed, TurnCards.AppendTurnCard, DetailsAfter, TurnDetails.Follow, TurnDetails.Covers;
    assert TurnDetails.Continues(TurnDetails.After(cache, summary), stray);
    hide TurnDetails.After;
    TurnDetails.StrayEntryIsLost(cache, {1, 2}, summary, stray);
    TurnDetails.RunTwo(cache, summary, stray);
    var end := Apply(Apply(cache, LiveEvent(SUMMARY)), LiveEvent(STRAY));
    assert end == TurnDetails.RunEvents(cache, [summary, stray]);
  }
}
