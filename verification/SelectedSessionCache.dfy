/** The selected session's cache and its reducers: snapshots, entry bodies,
    active-branch syncs, switches, live appends, turn pages and turn details.
    Every reducer returns a new cache value. */
module SelectedSessionCache {
  import opened CodeUnits
  import opened Transcript
  import opened TurnCards

  type SessionId = int

  datatype Snapshot = Snapshot(
    sessionId: SessionId,
    activeLeafId: Option<Id>,
    sessionRevision: Option<int>,
    queueRevision: Option<int>,
    transcriptRevision: Option<int>,
    lastEventId: int,
    hasTranscriptEntries: bool,
    entries: Option<seq<Entry>>)

  datatype Cache = Cache(
    sessionId: Option<SessionId>,
    snapshot: Option<Snapshot>,
    activeBranchEntryIds: seq<Id>,
    entriesById: map<Id, Entry>,
    cards: Cards,
    turnDetailsById: map<Id, seq<Id>>,
    transcriptTurnsLoaded: bool,
    turnPageHydrationRevision: nat,
    turnTranscriptRevision: Option<int>,
    turnActiveLeafId: Option<Id>,
    turnHasMoreBefore: bool,
    turnBeforeEntryId: Option<Id>)

  function EmptyCache(sessionId: Option<SessionId>): Cache {
    Cache(sessionId, None, [], map[], NO_CARDS, map[], false, 0, None, None, false, None)
  }

  /** The loaded turns belong to the snapshot's revision and leaf. */
  predicate Usable(cache: Cache, sessionId: Option<SessionId>) {
    && sessionId.Some? && cache.sessionId == sessionId && cache.snapshot.Some? && cache.transcriptTurnsLoaded
    && cache.turnTranscriptRevision == cache.snapshot.value.transcriptRevision
    && cache.turnActiveLeafId == cache.snapshot.value.activeLeafId
  }

  function Max(a: int, b: int): int { if a < b then b else a }

  // ---------- Entry bodies ----------

  /** Rows are immutable: an entry with the same durable identity is kept. */
  function Reusable(existing: Option<Entry>, incoming: Entry): Entry {
    if existing.Some? && existing.value.id == incoming.id && existing.value.parentId == incoming.parentId &&
       existing.value.timestampMs == incoming.timestampMs && existing.value.sequence == incoming.sequence
    then existing.value else incoming
  }

  function Lookup(entries: map<Id, Entry>, id: Id): Option<Entry> {
    if id in entries then Some(entries[id]) else None
  }

  /** `mergeEntryBodies` */
  function MergeEntryBodies(current: map<Id, Entry>, entries: seq<Entry>): map<Id, Entry> {
    if entries == [] then current
    else
      var last := entries[|entries| - 1];
      var earlier := MergeEntryBodies(current, entries[..|entries| - 1]);
      var existing := Lookup(current, last.id);
      if existing == Some(Reusable(existing, last)) then earlier else earlier[last.id := Reusable(existing, last)]
  }

  method MergeEntryBodiesLoop(current: map<Id, Entry>, entries: seq<Entry>) returns (next: map<Id, Entry>)
    ensures next == MergeEntryBodies(current, entries)
  {
    next := current;
    for i := 0 to |entries|
      invariant next == MergeEntryBodies(current, entries[..i])
    {
      assert entries[..i + 1][..i] == entries[..i];
      var existing := Lookup(current, entries[i].id);
      var merged := Reusable(existing, entries[i]);
      if existing != Some(merged) { next := next[entries[i].id := merged]; }
    }
    assert entries[..|entries|] == entries;
  }

  /** Rows are immutable: every cached body is the row its id stands for. */
  ghost predicate Rows(rows: map<Id, Entry>, byId: map<Id, Entry>) {
    forall id | id in byId :: id in rows && rows[id] == byId[id]
  }

  ghost predicate AreRows(rows: map<Id, Entry>, entries: seq<Entry>) {
    forall i | 0 <= i < |entries| :: entries[i].id in rows && rows[entries[i].id] == entries[i]
  }

  /** Merging rows into rows adds exactly the new ones and alters none. */
  lemma {:induction false} MergeRows(rows: map<Id, Entry>, current: map<Id, Entry>, entries: seq<Entry>)
    requires Rows(rows, current) && AreRows(rows, entries)
    ensures Rows(rows, MergeEntryBodies(current, entries))
    ensures MergeEntryBodies(current, entries).Keys == current.Keys + IdsOf(entries)
  {
    if entries != [] {
      var n := |entries| - 1;
      MergeRows(rows, current, entries[..n]);
      assert entries[..n] + [entries[n]] == entries;
      IdsOfSnoc(entries[..n], entries[n]);
    }
  }

  lemma IdsOfSnoc(entries: seq<Entry>, entry: Entry)
    ensures IdsOf(entries + [entry]) == IdsOf(entries) + {entry.id}
  {
    var all := entries + [entry];
    forall id | id in IdsOf(entries) + {entry.id}
      ensures id in IdsOf(all)
    {
      if id == entry.id {
        assert all[|entries|].id == id;
      } else {
        var i :| 0 <= i < |entries| && entries[i].id == id;
        assert all[i].id == id;
      }
    }
  }

  function EntryIds(entries: seq<Entry>): seq<Id> {
    seq(|entries|, i requires 0 <= i < |entries| => entries[i].id)
  }

  /** The cached bodies of `ids`, skipping those not cached. */
  function SelectedEntries(ids: seq<Id>, entriesById: map<Id, Entry>): seq<Entry> {
    if ids == [] then []
    else
      var rest := SelectedEntries(ids[1..], entriesById);
      if ids[0] in entriesById then [entriesById[ids[0]]] + rest else rest
  }

  // ---------- The active branch ----------

  /** `activeBranchIdsForSnapshot` */
  function BranchIdsForLeaf(current: seq<Id>, leaf: Option<Id>): seq<Id> {
    if leaf.None? then [] else if Last(current) == leaf then current else [leaf.value]
  }

  /** `appendActiveBranchEntries`: None when an entry does not continue the branch. */
  function AppendBranch(current: seq<Id>, byId: map<Id, Entry>, entries: seq<Entry>): Option<seq<Id>>
    decreases |entries|
  {
    if entries == [] then Some(current)
    else if entries[0].id in current then AppendBranch(current, byId, entries[1..])
    else if DisplayParentIn(entries[0], byId) != Last(current) then None
    else AppendBranch(current + [entries[0].id], byId, entries[1..])
  }

  method AppendBranchLoop(current: seq<Id>, byId: map<Id, Entry>, entries: seq<Entry>) returns (ids: Option<seq<Id>>)
    ensures ids == AppendBranch(current, byId, entries)
  {
    var next := current;
    for i := 0 to |entries|
      invariant AppendBranch(current, byId, entries) == AppendBranch(next, byId, entries[i..])
    {
      assert entries[i..][1..] == entries[i + 1..];
      if entries[i].id in next { continue; }
      if DisplayParentIn(entries[i], byId) != Last(next) { return None; }
      next := next + [entries[i].id];
    }
    return Some(next);
  }

  // ---------- Reducers ----------

  /** `applySelectedSnapshot` (the tree fields are not part of this record). */
  function ApplySelectedSnapshot(cache: Cache, snapshot: Snapshot): Cache {
    var base := if cache.sessionId == Some(snapshot.sessionId) then cache else EmptyCache(Some(snapshot.sessionId));
    match snapshot.entries
    case Some(incoming) =>
      base.(sessionId := Some(snapshot.sessionId), snapshot := Some(snapshot),
            activeBranchEntryIds := EntryIds(incoming), entriesById := MergeEntryBodies(base.entriesById, incoming))
    case None =>
      var ids := BranchIdsForLeaf(base.activeBranchEntryIds, snapshot.activeLeafId);
      base.(sessionId := Some(snapshot.sessionId),
            snapshot := Some(snapshot.(entries := Some(SelectedEntries(ids, base.entriesById)))),
            activeBranchEntryIds := ids)
  }

  /** `applyEntryBodies` */
  function ApplyEntryBodies(cache: Cache, sessionId: SessionId, entries: seq<Entry>): Cache {
    if cache.sessionId != Some(sessionId) then cache
    else
      var entriesById := MergeEntryBodies(cache.entriesById, entries);
      if entriesById == cache.entriesById then cache
      else
        cache.(entriesById := entriesById,
               snapshot := if cache.snapshot.None? then None else
                 Some(cache.snapshot.value.(entries := Some(SelectedEntries(cache.activeBranchEntryIds, entriesById)))))
  }

  datatype SyncStatus = Unchanged | Extended | BranchChanged
  datatype Sync = Sync(sessionId: SessionId, activeLeafId: Option<Id>, status: SyncStatus, entries: seq<Entry>,
                       overview: Snapshot)
  datatype SyncResult = Applied | Reload | Ignored

  /** `applyActiveBranchSyncToCache` */
  function ApplySync(cache: Cache, sync: Sync): (Cache, SyncResult) {
    if cache.sessionId != Some(sync.sessionId) || cache.snapshot.None? then (cache, Ignored)
    else if sync.status == BranchChanged then (cache, Reload)
    else
      var entriesById :=
        if sync.status == Extended then MergeEntryBodies(cache.entriesById, sync.entries) else cache.entriesById;
      var ids :=
        if sync.status == Extended then AppendBranch(cache.activeBranchEntryIds, entriesById, sync.entries)
        else Some(cache.activeBranchEntryIds);
      if ids.None? || Last(ids.value) != sync.activeLeafId then (cache, Reload)
      else
        var bodies := SelectedEntries(ids.value, entriesById);
        if |bodies| != |ids.value| then (cache, Reload)
        else
          (cache.(snapshot := Some(sync.overview.(activeLeafId := sync.activeLeafId, entries := Some(bodies))),
                  activeBranchEntryIds := ids.value, entriesById := entriesById), Applied)
  }

  datatype SwitchResult = SwitchResult(
    sessionId: SessionId,
    activeLeafId: Option<Id>,
    sessionRevision: Option<int>,
    queueRevision: Option<int>,
    transcriptRevision: Option<int>,
    lastEventId: Option<int>,
    ids: Option<seq<Id>>,
    entries: Option<seq<Entry>>)

  function SwitchedSnapshot(snapshot: Snapshot, result: SwitchResult, entries: seq<Entry>): Snapshot {
    snapshot.(
      activeLeafId := result.activeLeafId,
      sessionRevision := Or(result.sessionRevision, snapshot.sessionRevision),
      queueRevision := Or(result.queueRevision, snapshot.queueRevision),
      transcriptRevision := Or(result.transcriptRevision, snapshot.transcriptRevision),
      lastEventId := OrElse(result.lastEventId, snapshot.lastEventId),
      entries := Some(entries))
  }

  /** `applySwitchResultToCache` */
  function ApplySwitch(cache: Cache, result: SwitchResult): Cache {
    if cache.sessionId != Some(result.sessionId) || cache.snapshot.None? then cache
    else
      var entriesById :=
        if result.entries.Some? then MergeEntryBodies(cache.entriesById, result.entries.value) else cache.entriesById;
      var ids :=
        if result.ids.Some? then result.ids.value
        else if result.entries.Some? then EntryIds(result.entries.value)
        else cache.activeBranchEntryIds;
      cache.(snapshot := Some(SwitchedSnapshot(cache.snapshot.value, result, SelectedEntries(ids, entriesById))),
             activeBranchEntryIds := ids, entriesById := entriesById)
  }

  datatype AppendEvent = AppendEvent(
    sessionId: SessionId,
    eventId: int,
    entry: Option<Entry>,
    sessionRevision: Option<int>,
    queueRevision: Option<int>,
    transcriptRevision: Option<int>,
    activeLeafId: Option<Id>)

  datatype EventResult = EventApplied | Refresh | EventIgnored

  function Or<T>(value: Option<T>, fallback: Option<T>): Option<T> {
    if value.Some? then value else fallback
  }

  function AppendLoadedTurnDetail(details: map<Id, seq<Id>>, turnId: Option<Id>, leaf: Option<Id>, entryId: Id):
    map<Id, seq<Id>>
  {
    if turnId.None? || turnId.value !in details then details
    else
      var ids := details[turnId.value];
      if entryId in ids || Last(ids) != leaf then details else details[turnId.value := ids + [entryId]]
  }

  function MigrateTurnDetail(details: map<Id, seq<Id>>, previous: Option<Id>, next: Option<Id>): map<Id, seq<Id>> {
    if previous.None? || next.None? || previous == next || previous.value !in details || next.value in details
    then details
    else (details - {previous.value})[next.value := details[previous.value]]
  }

  function EventSnapshot(snapshot: Snapshot, event: AppendEvent, leaf: Option<Id>, entries: seq<Entry>): Snapshot {
    snapshot.(
      activeLeafId := leaf,
      sessionRevision := Or(event.sessionRevision, Some(OrElse(snapshot.sessionRevision, 0))),
      queueRevision := Or(event.queueRevision, Some(OrElse(snapshot.queueRevision, 0))),
      transcriptRevision := Or(event.transcriptRevision, Some(OrElse(snapshot.transcriptRevision, 0))),
      lastEventId := Max(snapshot.lastEventId, event.eventId),
      entries := Some(entries))
  }

  /** The turn details after a live entry joins the branch. */
  function DetailsAfter(cache: Cache, cards: Cards, entry: Entry, leaf: Option<Id>): map<Id, seq<Id>> {
    var previous := Last(cache.cards.order);
    var next := Last(cards.order);
    var stillExists := previous.Some? && previous.value in cards.byId;
    var appendedNewCard := previous.Some? && previous != next && stillExists;
    var replaced := previous.Some? && previous != next && !stillExists;
    var wasOpen := previous.Some? && previous.value in cache.cards.byId && cache.cards.byId[previous.value].status == Open;
    var extended :=
      if !appendedNewCard && (!entry.item.CompactionSummary? || wasOpen)
      then AppendLoadedTurnDetail(cache.turnDetailsById, previous, leaf, entry.id) else cache.turnDetailsById;
    if replaced then MigrateTurnDetail(extended, previous, next) else extended
  }

  /** `applyTranscriptAppendedEvent`, for events without a tree node. */
  function ApplyAppended(cache: Cache, event: AppendEvent): (Cache, EventResult) {
    if cache.sessionId != Some(event.sessionId) || cache.snapshot.None? then (cache, EventIgnored)
    else if event.entry.None? then (cache, Refresh)
    else
      var entry := event.entry.value;
      var leaf := Last(cache.activeBranchEntryIds);
      var appends := DisplayParent(entry) == leaf;
      var entriesById := cache.entriesById[entry.id := entry];
      var snapshot := cache.snapshot.value;
      if !appends && event.activeLeafId == Some(entry.id) then
        (cache.(snapshot := Some(EventSnapshot(snapshot, event, event.activeLeafId,
                                               OrElse(snapshot.entries, SelectedEntries(cache.activeBranchEntryIds, cache.entriesById)))),
                entriesById := entriesById), Refresh)
      else
        var ids := if appends then cache.activeBranchEntryIds + [entry.id] else cache.activeBranchEntryIds;
        var cards := if appends then AppendTurnCard(cache.cards, entry) else cache.cards;
        (cache.(snapshot := Some(EventSnapshot(snapshot, event, Or(event.activeLeafId, snapshot.activeLeafId),
                                               SelectedEntries(ids, entriesById))),
                activeBranchEntryIds := ids,
                entriesById := entriesById,
                cards := cards,
                turnDetailsById := if appends then DetailsAfter(cache, cards, entry, leaf) else cache.turnDetailsById,
                turnTranscriptRevision := Or(event.transcriptRevision, cache.turnTranscriptRevision),
                turnActiveLeafId := Or(event.activeLeafId, cache.turnActiveLeafId)),
         if appends then EventApplied else Refresh)
  }
}
