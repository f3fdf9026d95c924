/** What the reducers' verdicts say: "applied" means that the cached branch has moved with
    the daemon's, "refresh" and "reload" that it has not. A cache none of whose steps asked
    for a refresh ends at the leaf the daemon last announced. */
module BranchSync {
  import opened CodeUnits
  import opened Collections
  import opened Transcript
  import opened SelectedSessionCache
  import TurnCards
  import TurnPages
  import ActiveBranch

  // ---------- Live events ----------

  /** The session is the cached one, and loaded. */
  predicate Loaded(cache: Cache, sessionId: SessionId) { cache.sessionId == Some(sessionId) && cache.snapshot.Some? }

  /** An event is applied exactly when the branch grows by its entry, that is when the entry
      hangs below the branch's last; it is ignored exactly when it is for another session; any
      other one leaves the branch and the turns and asks for a refresh. */
  lemma EventVerdict(cache: Cache, event: AppendEvent)
    ensures var (next, verdict) := ApplyAppended(cache, event);
            var ids := cache.activeBranchEntryIds;
            && (verdict == EventIgnored <==> !Loaded(cache, event.sessionId))
            && (verdict == EventApplied <==>
                  event.entry.Some? && next.activeBranchEntryIds == ids + [event.entry.value.id])
            && (verdict == EventApplied <==>
                  Loaded(cache, event.sessionId) && event.entry.Some? && DisplayParent(event.entry.value) == Last(ids))
            && (verdict != EventApplied ==> next.activeBranchEntryIds == ids && next.cards == cache.cards)
            && (verdict == EventIgnored || event.entry.None? ==> next == cache)
            && (verdict != EventIgnored && event.entry.Some? ==>
                  && next.entriesById == cache.entriesById[event.entry.value.id := event.entry.value]
                  && next.snapshot.Some? && next.snapshot.value.lastEventId == Max(cache.snapshot.value.lastEventId, event.eventId)
                  && (event.activeLeafId.Some? ==> next.snapshot.value.activeLeafId == event.activeLeafId)
                  && (event.transcriptRevision.Some? ==> next.snapshot.value.transcriptRevision == event.transcriptRevision))
  {
    if Loaded(cache, event.sessionId) && event.entry.Some? {
      var ids, id := cache.activeBranchEntryIds, event.entry.value.id;
      assert |ids + [id]| != |ids|;
      EventTaken(cache, event);
      hide ApplyAppended, DisplayParent;
    }
  }

  lemma EventTaken(cache: Cache, event: AppendEvent)
    requires Loaded(cache, event.sessionId) && event.entry.Some?
    ensures var (next, verdict) := ApplyAppended(cache, event);
            var entry := event.entry.value;
            var joins := DisplayParent(entry) == Last(cache.activeBranchEntryIds);
            && verdict == (if joins then EventApplied else Refresh)
            && next.activeBranchEntryIds == (if joins then cache.activeBranchEntryIds + [entry.id] else cache.activeBranchEntryIds)
            && (!joins ==> next.cards == cache.cards)
            && next.entriesById == cache.entriesById[entry.id := entry] && next.snapshot.Some?
            && next.snapshot.value.lastEventId == Max(cache.snapshot.value.lastEventId, event.eventId)
            && (event.activeLeafId.Some? ==> next.snapshot.value.activeLeafId == event.activeLeafId)
            && (event.transcriptRevision.Some? ==> next.snapshot.value.transcriptRevision == event.transcriptRevision)
  {
    hide TurnCards.AppendTurnCard, DetailsAfter, SelectedEntries, DisplayParent;
  }

  /** A usable cache whose snapshot knows its revision stays usable across every event but one
      that makes an entry off the branch the leaf. */
  lemma EventUsableIff(cache: Cache, event: AppendEvent)
    requires Usable(cache, Some(event.sessionId)) && cache.snapshot.value.transcriptRevision.Some?
    ensures var (next, verdict) := ApplyAppended(cache, event);
            var moved := event.entry.Some? && event.activeLeafId == Some(event.entry.value.id) && verdict != EventApplied;
            && (!moved ==> Usable(next, Some(event.sessionId)))
            && (moved && event.activeLeafId != cache.turnActiveLeafId ==> !Usable(next, Some(event.sessionId)))
  {
    hide TurnCards.AppendTurnCard, DetailsAfter, SelectedEntries, DisplayParent;
  }

  // ---------- Syncs ----------

  /** The entries that are new to the branch, first occurrences in order. */
  function Fresh(current: seq<Id>, entries: seq<Entry>): seq<Entry> {
    if entries == [] then []
    else
      var n := |entries| - 1;
      var earlier := Fresh(current, entries[..n]);
      if entries[n].id in current || entries[n].id in EntryIds(earlier) then earlier else earlier + [entries[n]]
  }

  /** Each of them hangs below the one before, the first below the end of the branch. */
  predicate Links(current: seq<Id>, byId: map<Id, Entry>, added: seq<Entry>) {
    && (added != [] ==> DisplayParentIn(added[0], byId) == Last(current))
    && (forall i | 0 < i < |added| :: DisplayParentIn(added[i], byId) == Some(added[i - 1].id))
  }

  lemma IdsSnoc(entries: seq<Entry>, entry: Entry)
    ensures EntryIds(entries + [entry]) == EntryIds(entries) + [entry.id]
  {
  }

  lemma {:induction false} AppendSnoc(current: seq<Id>, byId: map<Id, Entry>, entries: seq<Entry>, entry: Entry)
    ensures AppendBranch(current, byId, entries + [entry]) ==
            match AppendBranch(current, byId, entries)
            case None => None
            case Some(ids) => AppendBranch(ids, byId, [entry])
    decreases |entries|
  {
    if entries == [] {
      assert entries + [entry] == [entry];
    } else {
      assert (entries + [entry])[1..] == entries[1..] + [entry];
      AppendSnoc(current, byId, entries[1..], entry);
      AppendSnoc(current + [entries[0].id], byId, entries[1..], entry);
    }
  }

  /** The sync's entries are taken exactly when the new ones link, and they then follow. */
  lemma {:induction false} AppendExact(current: seq<Id>, byId: map<Id, Entry>, entries: seq<Entry>)
    ensures var added := Fresh(current, entries);
            AppendBranch(current, byId, entries) ==
            if Links(current, byId, added) then Some(current + EntryIds(added)) else None
  {
    if entries == [] {
      assert current + EntryIds([]) == current;
    } else {
      var n := |entries| - 1;
      var entry := entries[n];
      var earlier := Fresh(current, entries[..n]);
      assert entries == entries[..n] + [entry];
      AppendExact(current, byId, entries[..n]);
      AppendSnoc(current, byId, entries[..n], entry);
      IdsSnoc(earlier, entry);
      OneMore(current, byId, earlier, entry);
      AppendOne(current + EntryIds(earlier), byId, entry);
      assert current + (EntryIds(earlier) + [entry.id]) == current + EntryIds(earlier) + [entry.id];
      hide Links, AppendBranch, EntryIds;
    }
  }

  lemma AppendOne(ids: seq<Id>, byId: map<Id, Entry>, entry: Entry)
    ensures AppendBranch(ids, byId, [entry]) ==
            if entry.id in ids then Some(ids)
            else if DisplayParentIn(entry, byId) == Last(ids) then Some(ids + [entry.id]) else None
  {
    assert [entry][1..] == [];
    hide DisplayParentIn;
  }

  lemma OneMore(current: seq<Id>, byId: map<Id, Entry>, added: seq<Entry>, entry: Entry)
    ensures var ids := current + EntryIds(added);
            && (entry.id in ids <==> entry.id in current || entry.id in EntryIds(added))
            && (Links(current, byId, added + [entry]) <==>
                  Links(current, byId, added) && DisplayParentIn(entry, byId) == Last(ids))
  {
    var ids := current + EntryIds(added);
    var more := added + [entry];
    var n := |added|;
    assert Last(ids) == if n == 0 then Last(current) else Some(added[n - 1].id);
    hide DisplayParentIn, EntryIds;
    assert forall i | 0 <= i < n :: more[i] == added[i];
    assert more[n] == entry;
  }

  lemma {:induction false} SelectedCount(ids: seq<Id>, byId: map<Id, Entry>)
    ensures |SelectedEntries(ids, byId)| <= |ids|
    ensures |SelectedEntries(ids, byId)| == |ids| <==> forall i | 0 <= i < |ids| :: ids[i] in byId
  {
    if ids != [] {
      SelectedCount(ids[1..], byId);
      assert forall i | 0 < i < |ids| :: ids[i] == ids[1..][i - 1];
      assert (forall i | 0 <= i < |ids| :: ids[i] in byId) <==>
             ids[0] in byId && forall i | 0 <= i < |ids[1..]| :: ids[1..][i] in byId;
    }
  }

  /** The branch a sync describes. */
  function SyncedBranch(cache: Cache, sync: Sync): seq<Id> {
    cache.activeBranchEntryIds +
    if sync.status == Extended then EntryIds(Fresh(cache.activeBranchEntryIds, sync.entries)) else []
  }

  function SyncedBodies(cache: Cache, sync: Sync): map<Id, Entry> {
    if sync.status == Extended then MergeEntryBodies(cache.entriesById, sync.entries) else cache.entriesById
  }

  /** The sync leads from the cached branch to its leaf, and no body is missing. */
  ghost predicate Fits(cache: Cache, sync: Sync) {
    var ids, byId := SyncedBranch(cache, sync), SyncedBodies(cache, sync);
    && sync.status != BranchChanged
    && (sync.status == Extended ==> Links(cache.activeBranchEntryIds, byId, Fresh(cache.activeBranchEntryIds, sync.entries)))
    && Last(ids) == sync.activeLeafId
    && forall i | 0 <= i < |ids| :: ids[i] in byId
  }

  /** A sync is applied exactly when it fits; the branch is then the one it describes, ending at
      its leaf and with every body cached. Any other sync leaves the cache as it was. */
  lemma SyncVerdict(cache: Cache, sync: Sync)
    ensures var (next, verdict) := ApplySync(cache, sync);
            && (verdict == Ignored <==> !Loaded(cache, sync.sessionId))
            && (verdict == Applied <==> Loaded(cache, sync.sessionId) && Fits(cache, sync))
            && (verdict != Applied ==> next == cache)
            && (verdict == Applied ==>
                  && next.activeBranchEntryIds == SyncedBranch(cache, sync)
                  && next.entriesById == SyncedBodies(cache, sync)
                  && next.snapshot.Some? && next.snapshot.value.activeLeafId == sync.activeLeafId
                  && next.snapshot.value.transcriptRevision == sync.overview.transcriptRevision
                  && next.snapshot.value.lastEventId == sync.overview.lastEventId
                  && next.cards == cache.cards && next.turnDetailsById == cache.turnDetailsById)
  {
    var ids, byId := SyncedBranch(cache, sync), SyncedBodies(cache, sync);
    AppendExact(cache.activeBranchEntryIds, byId, sync.entries);
    SelectedCount(ids, byId);
    assert cache.activeBranchEntryIds + [] == cache.activeBranchEntryIds;
    hide AppendBranch, SelectedEntries, MergeEntryBodies, Fresh, Links, EntryIds;
  }

  // ---------- Runs ----------

  function LeafOf(cache: Cache): Option<Id> {
    if cache.snapshot.Some? then cache.snapshot.value.activeLeafId else None
  }

  /** The branch ends at the session's active leaf. */
  predicate InSync(cache: Cache) { cache.snapshot.Some? ==> Last(cache.activeBranchEntryIds) == LeafOf(cache) }

  /** The step told its caller that the cache is behind. */
  ghost predicate ToldBehind(cache: Cache, step: ActiveBranch.Step) {
    match step
    case FromServer(SyncArrives(sync)) => ApplySync(cache, sync).1 == Reload
    case EventArrives(event) => ApplyAppended(cache, event).1 == Refresh
    case _ => false
  }

  /** Where the daemon sends a branch it ends at the leaf it announces, and an entry below the
      leaf is announced as the new leaf. */
  ghost predicate Announces(cache: Cache, step: ActiveBranch.Step) {
    match step
    case FromServer(SnapshotArrives(snapshot)) =>
      snapshot.entries.Some? ==> Last(EntryIds(snapshot.entries.value)) == snapshot.activeLeafId
    case FromServer(SwitchArrives(result)) =>
      if result.ids.Some? then Last(result.ids.value) == result.activeLeafId
      else if result.entries.Some? then Last(EntryIds(result.entries.value)) == result.activeLeafId
      else result.activeLeafId == LeafOf(cache)
    case EventArrives(event) =>
      event.entry.Some? && DisplayParent(event.entry.value) == Last(cache.activeBranchEntryIds) ==>
        event.activeLeafId == Some(event.entry.value.id)
    case _ => true
  }

  /** The leaf after a step that is for the cached session and not told to be behind. */
  function LeafAfter(cache: Cache, step: ActiveBranch.Step): Option<Id> {
    match step
    case FromServer(SnapshotArrives(snapshot)) => snapshot.activeLeafId
    case FromServer(SyncArrives(sync)) => if Loaded(cache, sync.sessionId) then sync.activeLeafId else LeafOf(cache)
    case FromServer(SwitchArrives(result)) => if Loaded(cache, result.sessionId) then result.activeLeafId else LeafOf(cache)
    case FromServer(PageArrives(page, mode)) =>
      if TurnPages.Admits(cache, page, mode) && cache.snapshot.Some? then page.activeLeafId else LeafOf(cache)
    case EventArrives(event) => if Loaded(cache, event.sessionId) then event.activeLeafId else LeafOf(cache)
    case _ => LeafOf(cache)
  }

  /** A snapshot brings any cache in step with it. */
  lemma SnapshotSyncs(cache: Cache, snapshot: Snapshot)
    requires Announces(cache, ActiveBranch.FromServer(TurnPages.SnapshotArrives(snapshot)))
    ensures var next := ApplySelectedSnapshot(cache, snapshot);
            && InSync(next) && next.snapshot.Some? && LeafOf(next) == snapshot.activeLeafId
            && next.sessionId == Some(snapshot.sessionId)
            && (snapshot.entries.Some? ==> next.activeBranchEntryIds == EntryIds(snapshot.entries.value))
            && (snapshot.entries.None? && cache.sessionId == Some(snapshot.sessionId) && snapshot.activeLeafId.Some? &&
                Last(cache.activeBranchEntryIds) == snapshot.activeLeafId ==>
                  next.activeBranchEntryIds == cache.activeBranchEntryIds)
  {
    hide MergeEntryBodies, SelectedEntries, EntryIds;
  }

  lemma SwitchSyncs(cache: Cache, result: SwitchResult)
    requires InSync(cache) && Announces(cache, ActiveBranch.FromServer(TurnPages.SwitchArrives(result)))
    ensures var next := ApplySwitch(cache, result);
            && InSync(next) && LeafOf(next) == LeafAfter(cache, ActiveBranch.FromServer(TurnPages.SwitchArrives(result)))
            && (Loaded(cache, result.sessionId) ==>
                  && (result.ids.Some? ==> next.activeBranchEntryIds == result.ids.value)
                  && (result.ids.None? && result.entries.Some? ==> next.activeBranchEntryIds == EntryIds(result.entries.value))
                  && next.snapshot.Some?
                  && (result.transcriptRevision.Some? ==> next.snapshot.value.transcriptRevision == result.transcriptRevision)
                  && (result.lastEventId.Some? ==> next.snapshot.value.lastEventId == result.lastEventId.value))
  {
    hide MergeEntryBodies, SelectedEntries, EntryIds;
  }

  lemma PageSyncs(cache: Cache, page: TurnPages.TurnsPage, mode: TurnPages.Mode)
    requires InSync(cache)
    ensures var next := TurnPages.ApplyTranscriptTurns(cache, page, mode);
            InSync(next) && LeafOf(next) == LeafAfter(cache, ActiveBranch.FromServer(TurnPages.PageArrives(page, mode)))
  {
    hide TurnPages.IncomingCards, TurnPages.CardsAfter, TurnPages.KeptDetails, SelectedEntries, TurnPages.Admits;
  }

  lemma EventSyncs(cache: Cache, event: AppendEvent)
    requires InSync(cache) && Announces(cache, ActiveBranch.EventArrives(event)) && ApplyAppended(cache, event).1 != Refresh
    ensures var next := ApplyAppended(cache, event).0;
            InSync(next) && LeafOf(next) == LeafAfter(cache, ActiveBranch.EventArrives(event))
  {
    EventVerdict(cache, event);
    hide ApplyAppended;
  }

  lemma StepSyncs(cache: Cache, step: ActiveBranch.Step)
    requires InSync(cache) && Announces(cache, step) && !ToldBehind(cache, step)
    ensures InSync(ActiveBranch.Apply(cache, step)) && LeafOf(ActiveBranch.Apply(cache, step)) == LeafAfter(cache, step)
  {
    hide ApplySelectedSnapshot, ApplySync, ApplySwitch, ApplyAppended, TurnPages.ApplyTranscriptTurns;
    match step
    case FromServer(SnapshotArrives(snapshot)) => SnapshotSyncs(cache, snapshot);
    case FromServer(BodiesArrive(_, entries)) => hide MergeEntryBodies, SelectedEntries;
    case FromServer(SyncArrives(sync)) =>
      SyncVerdict(cache, sync);
      hide Fits, SyncedBranch, SyncedBodies;
      SyncedEndsAtLeaf(cache, sync);
    case FromServer(SwitchArrives(result)) => SwitchSyncs(cache, result);
    case FromServer(PageArrives(page, mode)) => PageSyncs(cache, page, mode);
    case EventArrives(event) => EventSyncs(cache, event);
    case DetailArrives(_, _, entries) => hide MergeEntryBodies, SelectedEntries;
  }

  lemma SyncedEndsAtLeaf(cache: Cache, sync: Sync)
    ensures Fits(cache, sync) ==> Last(SyncedBranch(cache, sync)) == sync.activeLeafId
  {
    hide SyncedBranch, SyncedBodies;
  }

  /** However updates interleave: from a snapshot on, as long as no step asked for a refresh or a
      reload, the cached branch ends at the session's active leaf, which is the one announced by
      the last step that concerned the session. */
  lemma {:induction false} InSyncUnlessTold(cache: Cache, steps: seq<ActiveBranch.Step>)
    requires steps != [] && steps[0].FromServer? && steps[0].step.SnapshotArrives?
    requires forall k | 0 <= k < |steps| ::
               Announces(ActiveBranch.Run(cache, steps[..k]), steps[k]) && !ToldBehind(ActiveBranch.Run(cache, steps[..k]), steps[k])
    ensures InSync(ActiveBranch.Run(cache, steps))
    ensures var n := |steps| - 1;
            LeafOf(ActiveBranch.Run(cache, steps)) == LeafAfter(ActiveBranch.Run(cache, steps[..n]), steps[n])
  {
    var n := |steps| - 1;
    var before := ActiveBranch.Run(cache, steps[..n]);
    if n == 0 {
      assert steps[..0] == [];
      SnapshotSyncs(before, steps[0].step.snapshot);
      hide ApplySelectedSnapshot;
    } else {
      assert forall k | 0 <= k < n :: steps[..n][..k] == steps[..k] && steps[..n][k] == steps[k];
      hide ActiveBranch.Apply, Announces, ToldBehind;
      InSyncUnlessTold(cache, steps[..n]);
      StepSyncs(before, steps[n]);
    }
  }

  /** The snapshot lists the cached bodies of the branch. */
  predicate ListsBranch(cache: Cache) {
    cache.snapshot.Some? && cache.snapshot.value.entries == Some(SelectedEntries(cache.activeBranchEntryIds, cache.entriesById))
  }

  /** Every step that sets the branch or its bodies makes the snapshot list the branch. */
  lemma SnapshotListsBranch(cache: Cache, sync: Sync, result: SwitchResult, event: AppendEvent, sessionId: SessionId, entries: seq<Entry>)
    ensures ApplySync(cache, sync).1 == Applied ==> ListsBranch(ApplySync(cache, sync).0)
    ensures Loaded(cache, result.sessionId) ==> ListsBranch(ApplySwitch(cache, result))
    ensures ApplyAppended(cache, event).1 == EventApplied ==> ListsBranch(ApplyAppended(cache, event).0)
    ensures ListsBranch(cache) ==> ListsBranch(ApplyEntryBodies(cache, sessionId, entries))
  {
    hide SelectedEntries, MergeEntryBodies, AppendBranch, EntryIds, TurnCards.AppendTurnCard, DetailsAfter, DisplayParent;
  }

  // ---------- Bodies ----------

  /** The bodies a step brings for the cached session. */
  function Sent(cache: Cache, step: ActiveBranch.Step): seq<Entry> {
    match step
    case FromServer(SnapshotArrives(snapshot)) => OrElse(snapshot.entries, [])
    case FromServer(BodiesArrive(sessionId, entries)) => if cache.sessionId == Some(sessionId) then entries else []
    case FromServer(SwitchArrives(result)) => if Loaded(cache, result.sessionId) then OrElse(result.entries, []) else []
    case EventArrives(event) =>
      if Loaded(cache, event.sessionId) && event.entry.Some? then [event.entry.value] else []
    case _ => []
  }

  lemma {:induction false} MergeKeys(current: map<Id, Entry>, entries: seq<Entry>)
    ensures MergeEntryBodies(current, entries).Keys == current.Keys + TurnCards.IdsOf(entries)
  {
    if entries != [] {
      var n := |entries| - 1;
      MergeKeys(current, entries[..n]);
      assert entries[..n] + [entries[n]] == entries;
      IdsOfSnoc(entries[..n], entries[n]);
      hide TurnCards.IdsOf, Reusable;
      assert Lookup(current, entries[n].id).Some? ==> entries[n].id in current;
    }
  }

  /** The bodies sent are cached, and while the session stays none is dropped. */
  lemma BodiesAreCached(cache: Cache, step: ActiveBranch.Step)
    ensures var next := ActiveBranch.Apply(cache, step);
            && TurnCards.IdsOf(Sent(cache, step)) <= next.entriesById.Keys
            && (next.sessionId == cache.sessionId ==> cache.entriesById.Keys <= next.entriesById.Keys)
  {
    hide TurnCards.IdsOf, MergeEntryBodies, SelectedEntries, TurnCards.AppendTurnCard, DetailsAfter, EventSnapshot, AppendBranch;
    hide TurnPages.CardsAfter, TurnPages.KeptDetails, EntryIds;
    NoIds();
    match step
    case FromServer(SnapshotArrives(snapshot)) =>
      MergeKeys(cache.entriesById, OrElse(snapshot.entries, []));
      MergeKeys(map[], OrElse(snapshot.entries, []));
    case FromServer(BodiesArrive(_, entries)) => MergeKeys(cache.entriesById, entries);
    case FromServer(SyncArrives(sync)) => MergeKeys(cache.entriesById, sync.entries);
    case FromServer(SwitchArrives(result)) => MergeKeys(cache.entriesById, OrElse(result.entries, []));
    case FromServer(PageArrives(page, _)) => CardBodies(cache.entriesById, page.cards);
    case EventArrives(event) =>
      if event.entry.Some? {
        OneId(event.entry.value);
      }
    case DetailArrives(_, _, entries) => MergeKeys(cache.entriesById, entries);
  }

  lemma NoIds()
    ensures TurnCards.IdsOf([]) == {}
  {
  }

  lemma OneId(entry: Entry)
    ensures TurnCards.IdsOf([entry]) == {entry.id}
  {
    assert [entry][0] == entry;
  }

  lemma {:induction false} CardBodies(byId: map<Id, Entry>, cards: seq<TurnCard>)
    ensures byId.Keys <= TurnPages.IncomingCards(byId, cards).entriesById.Keys
  {
    if cards != [] {
      var n := |cards| - 1;
      CardBodies(byId, cards[..n]);
      MergeKeys(TurnPages.IncomingCards(byId, cards[..n]).entriesById, TurnPages.CardEntries(cards[n]));
      hide MergeEntryBodies;
    }
  }
}
