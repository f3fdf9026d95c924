/** Loaded turn details: the entry ids shown for an expanded turn. Live entries
    extend the detail of the running turn and follow its card when the card
    changes id; a detail that arrives late is extended along cached rows. */
module TurnDetails {
  import opened CodeUnits
  import opened Collections
  import opened Transcript
  import opened TurnCards
  import opened SelectedSessionCache

  // ---------- Live appends ----------

  /** The event continues the active branch. */
  predicate Continues(cache: Cache, event: AppendEvent) {
    && cache.sessionId == Some(event.sessionId) && cache.snapshot.Some? && event.entry.Some?
    && DisplayParent(event.entry.value) == Last(cache.activeBranchEntryIds)
  }

  /** The last card takes up the entry, rather than a new card or none. */
  ghost predicate Updates(cards: Cards, seen: set<Id>, item: Item)
    requires Filed(cards, seen)
  {
    && cards.order != [] && !item.TurnStarted?
    && var status := LastCard(cards, seen).status;
       if item.CompactionSummary? then status == Open else status != Compacted
  }

  /** The card that card `id` has become after the entry. */
  function Follow(cards: Cards, entry: Entry, id: Id): Id {
    var next := AppendTurnCard(cards, entry);
    if id in next.byId || next.order == [] then id else next.order[|next.order| - 1]
  }

  lemma UpdatedId(card: TurnCard, id: Id, entry: Entry, seen: set<Id>)
    requires CardFiled(id, card, seen) && !entry.item.TurnStarted?
    ensures var updated := UpdateTurnCard(card, entry);
            var next := StableId(updated);
            && (next == id || next == entry.id)
            && CardFiled(next, updated.(id := next), seen + {entry.id})
            && updated.activeLeafId == entry.id
  {
    hide AppendUniqueEntry;
  }

  /** An entry the last card takes up: that card moves its leaf to the entry, and its id
      to the entry or nowhere; the others stay. */
  lemma UpdatedCards(cards: Cards, seen: set<Id>, entry: Entry)
    requires Filed(cards, seen) && entry.id !in seen && Updates(cards, seen, entry.item)
    ensures var n := |cards.order| - 1;
            var next := AppendTurnCard(cards, entry);
            var updated := UpdateTurnCard(LastCard(cards, seen), entry);
            var id := StableId(updated);
            && (id == cards.order[n] || id == entry.id)
            && next == ReplaceLast(cards, id, updated.(id := id))
            && CardFiled(id, updated.(id := id), seen + {entry.id})
            && updated.activeLeafId == entry.id
  {
    var n := |cards.order| - 1;
    assert CardFiled(cards.order[n], LastCard(cards, seen), seen);
    UpdatedId(LastCard(cards, seen), cards.order[n], entry, seen);
  }

  /** Otherwise the cards stay, or gain an open one for this entry. */
  lemma OtherCards(cards: Cards, seen: set<Id>, entry: Entry) returns (card: TurnCard)
    requires Filed(cards, seen) && entry.id !in seen && !Updates(cards, seen, entry.item)
    ensures AppendTurnCard(cards, entry) == if entry.item.CompactionSummary? then cards else AddLast(cards, card)
    ensures card.id == entry.id && card.activeLeafId == entry.id && CardFiled(card.id, card, seen + {entry.id})
  {
    hide AppendUniqueEntry;
    card := UpdateTurnCard(InitialTurnCard(entry), entry);
    if cards.order == [] {
      assert forall id :: id !in cards.byId;
      assert cards.byId == map[];
    } else {
      var last := LastCard(cards, seen);
      assert CardFiled(cards.order[|cards.order| - 1], last, seen);
      if !entry.item.TurnStarted? && !entry.item.CompactionSummary? {
        card := UpdateTurnCard(InitialTurnCardFromCompactionResume(last, entry), entry);
        card := card.(id := StableId(card));
      }
    }
  }

  /** The cards after one entry are filed again. */
  lemma AppendFiled(cards: Cards, seen: set<Id>, entry: Entry)
    requires Filed(cards, seen) && entry.id !in seen
    ensures Filed(AppendTurnCard(cards, entry), seen + {entry.id})
  {
    if Updates(cards, seen, entry.item) {
      var updated := UpdateTurnCard(LastCard(cards, seen), entry);
      var id := StableId(updated);
      UpdatedCards(cards, seen, entry);
      ReplaceLastFiled(cards, seen, id, updated.(id := id), entry.id);
    } else {
      var card := OtherCards(cards, seen, entry);
      if entry.item.CompactionSummary? {
        assert forall k | k in cards.byId :: CardFiled(k, cards.byId[k], seen + {entry.id});
      } else {
        AddLastFiled(cards, seen, card);
      }
    }
  }

  // ---------- Details follow their cards ----------

  /** An open last card reaches the tip of the branch. */
  ghost predicate Attached(cache: Cache, seen: set<Id>)
    requires Filed(cache.cards, seen)
  {
    cache.cards.order != [] && LastCard(cache.cards, seen).status == Open ==>
      Some(LastCard(cache.cards, seen).activeLeafId) == Last(cache.activeBranchEntryIds)
  }

  ghost predicate Steady(cache: Cache, seen: set<Id>) {
    && Filed(cache.cards, seen) && cache.turnDetailsById.Keys <= seen
    && Attached(cache, seen)
  }

  /** The loaded detail of card `id` ends at the card's leaf. */
  predicate Covers(cache: Cache, id: Id) {
    && id in cache.cards.byId && id in cache.turnDetailsById
    && Last(cache.turnDetailsById[id]) == Some(cache.cards.byId[id].activeLeafId)
  }

  ghost predicate DetailSeen(cache: Cache, id: Id, seen: set<Id>) {
    id in cache.turnDetailsById && forall x | x in cache.turnDetailsById[id] :: x in seen
  }

  /** After a finished turn only a turn start or a compaction summary joins the branch. */
  predicate WellFormed(cards: Cards, entry: Entry) {
    cards.order != [] && cards.order[|cards.order| - 1] in cards.byId &&
    cards.byId[cards.order[|cards.order| - 1]].status == Completed ==>
      entry.item.TurnStarted? || entry.item.CompactionSummary?
  }

  function After(cache: Cache, event: AppendEvent): Cache { ApplyAppended(cache, event).0 }

  lemma AfterFields(cache: Cache, event: AppendEvent)
    requires Continues(cache, event)
    ensures var entry := event.entry.value;
            var after := After(cache, event);
            && after.cards == AppendTurnCard(cache.cards, entry)
            && after.activeBranchEntryIds == cache.activeBranchEntryIds + [entry.id]
            && after.turnDetailsById == DetailsAfter(cache, after.cards, entry, Last(cache.activeBranchEntryIds))
  {
    hide AppendTurnCard, DetailsAfter, SelectedEntries;
  }

  /** What an entry the last card takes up does to the details. */
  lemma UpdatedDetails(cache: Cache, seen: set<Id>, entry: Entry)
    requires Filed(cache.cards, seen) && cache.turnDetailsById.Keys <= seen && entry.id !in seen
    requires Updates(cache.cards, seen, entry.item)
    ensures var last := cache.cards.order[|cache.cards.order| - 1];
            var tip := Last(cache.activeBranchEntryIds);
            var next := AppendTurnCard(cache.cards, entry);
            var id := StableId(UpdateTurnCard(LastCard(cache.cards, seen), entry));
            var extended := AppendLoadedTurnDetail(cache.turnDetailsById, Some(last), tip, entry.id);
            DetailsAfter(cache, next, entry, tip) ==
              if id == last then extended else MigrateTurnDetail(extended, Some(last), Some(id))
  {
    var cards := cache.cards;
    var n := |cards.order| - 1;
    var last := cards.order[n];
    UpdatedCards(cards, seen, entry);
    var next := AppendTurnCard(cards, entry);
    assert Last(next.order) == Some(StableId(UpdateTurnCard(LastCard(cards, seen), entry)));
    hide AppendTurnCard, UpdateTurnCard, StableId, AppendLoadedTurnDetail, MigrateTurnDetail, CardFiled;
  }

  /** Any other entry leaves the details alone. */
  lemma OtherDetails(cache: Cache, seen: set<Id>, entry: Entry)
    requires Filed(cache.cards, seen) && entry.id !in seen && !Updates(cache.cards, seen, entry.item)
    ensures DetailsAfter(cache, AppendTurnCard(cache.cards, entry), entry, Last(cache.activeBranchEntryIds)) ==
            cache.turnDetailsById
  {
    var card := OtherCards(cache.cards, seen, entry);
    assert cache.cards.order != [] ==> cache.cards.order[|cache.cards.order| - 1] in seen;
    hide AppendTurnCard, UpdateTurnCard, StableId, AppendLoadedTurnDetail, MigrateTurnDetail, CardFiled;
  }

  /** One entry the last card takes up. The last card's detail, if it reached the card's
      leaf, still does exactly when that leaf was the tip of the branch. */
  lemma LastDetailStep(cache: Cache, seen: set<Id>, event: AppendEvent)
    requires Continues(cache, event) && event.entry.value.id !in seen
    requires Filed(cache.cards, seen) && cache.turnDetailsById.Keys <= seen
    requires Updates(cache.cards, seen, event.entry.value.item)
    requires var last := cache.cards.order[|cache.cards.order| - 1]; Covers(cache, last) && DetailSeen(cache, last, seen)
    ensures var last := cache.cards.order[|cache.cards.order| - 1];
            var id := Follow(cache.cards, event.entry.value, last);
            var after := After(cache, event);
            && id in after.cards.byId && after.cards.byId[id].activeLeafId == event.entry.value.id
            && (Covers(after, id) <==> Some(LastCard(cache.cards, seen).activeLeafId) == Last(cache.activeBranchEntryIds))
            && (Covers(after, id) ==>
                  after.turnDetailsById[id] == cache.turnDetailsById[last] + [event.entry.value.id])
  {
    var entry := event.entry.value;
    var last := cache.cards.order[|cache.cards.order| - 1];
    AfterFields(cache, event);
    UpdatedCards(cache.cards, seen, entry);
    UpdatedDetails(cache, seen, entry);
    hide AppendTurnCard, UpdateTurnCard, StableId, DetailsAfter, Continues, ApplyAppended;
  }

  /** A card that does not take up the entry keeps its id, its contents and its detail. */
  lemma OtherDetailStep(cache: Cache, seen: set<Id>, event: AppendEvent, id: Id)
    requires Continues(cache, event) && event.entry.value.id !in seen
    requires Filed(cache.cards, seen) && cache.turnDetailsById.Keys <= seen && Covers(cache, id)
    requires Updates(cache.cards, seen, event.entry.value.item) ==> id != cache.cards.order[|cache.cards.order| - 1]
    ensures var after := After(cache, event);
            && Follow(cache.cards, event.entry.value, id) == id && id in after.cards.byId
            && after.cards.byId[id] == cache.cards.byId[id]
            && id in after.turnDetailsById && after.turnDetailsById[id] == cache.turnDetailsById[id]
  {
    var entry := event.entry.value;
    AfterFields(cache, event);
    if Updates(cache.cards, seen, entry.item) {
      UpdatedCards(cache.cards, seen, entry);
      UpdatedDetails(cache, seen, entry);
    } else {
      var card := OtherCards(cache.cards, seen, entry);
      OtherDetails(cache, seen, entry);
    }
    hide AppendTurnCard, UpdateTurnCard, StableId, DetailsAfter, Continues, ApplyAppended;
  }

  lemma DetailKeysGrow(cache: Cache, seen: set<Id>, event: AppendEvent)
    requires Continues(cache, event) && event.entry.value.id !in seen
    requires Filed(cache.cards, seen) && cache.turnDetailsById.Keys <= seen
    ensures After(cache, event).turnDetailsById.Keys <= seen + {event.entry.value.id}
  {
    var entry := event.entry.value;
    AfterFields(cache, event);
    if Updates(cache.cards, seen, entry.item) {
      UpdatedCards(cache.cards, seen, entry);
      UpdatedDetails(cache, seen, entry);
    } else {
      OtherDetails(cache, seen, entry);
    }
    hide AppendTurnCard, UpdateTurnCard, StableId, DetailsAfter, Continues, ApplyAppended;
  }

  lemma StaysAttached(cache: Cache, seen: set<Id>, event: AppendEvent)
    requires Steady(cache, seen) && Continues(cache, event) && event.entry.value.id !in seen
    requires WellFormed(cache.cards, event.entry.value)
    ensures Filed(After(cache, event).cards, seen + {event.entry.value.id})
    ensures Attached(After(cache, event), seen + {event.entry.value.id})
  {
    var entry := event.entry.value;
    AfterFields(cache, event);
    AppendFiled(cache.cards, seen, entry);
    if Updates(cache.cards, seen, entry.item) {
      UpdatedCards(cache.cards, seen, entry);
    } else {
      var card := OtherCards(cache.cards, seen, entry);
    }
    hide AppendTurnCard, UpdateTurnCard, StableId, DetailsAfter, ApplyAppended, CardFiled;
  }

  /** One live entry on a well-formed branch: the detail still reaches its card's leaf,
      and has only grown. */
  lemma DetailStep(cache: Cache, seen: set<Id>, event: AppendEvent, id: Id)
    requires Steady(cache, seen) && Continues(cache, event) && event.entry.value.id !in seen
    requires WellFormed(cache.cards, event.entry.value)
    requires Covers(cache, id) && DetailSeen(cache, id, seen)
    ensures var after := After(cache, event);
            var next := Follow(cache.cards, event.entry.value, id);
            && Steady(after, seen + {event.entry.value.id})
            && Covers(after, next) && DetailSeen(after, next, seen + {event.entry.value.id})
            && cache.turnDetailsById[id] <= after.turnDetailsById[next]
            && (next == id || id !in after.cards.byId)
  {
    var entry := event.entry.value;
    AfterFields(cache, event);
    StaysAttached(cache, seen, event);
    DetailKeysGrow(cache, seen, event);
    if Updates(cache.cards, seen, entry.item) && id == cache.cards.order[|cache.cards.order| - 1] {
      LastDetailStep(cache, seen, event);
    } else {
      OtherDetailStep(cache, seen, event, id);
    }
    hide AppendTurnCard, DetailsAfter, ApplyAppended, CardFiled, Continues;
  }

  // ---------- Runs of live events ----------

  function RunEvents(cache: Cache, events: seq<AppendEvent>): Cache
    decreases |events|
  {
    if events == [] then cache else RunEvents(After(cache, events[0]), events[1..])
  }

  /** The card that card `id` has become after the events. */
  function FollowRun(cache: Cache, events: seq<AppendEvent>, id: Id): Id
    decreases |events|
  {
    if events == [] then id
    else
      FollowRun(After(cache, events[0]), events[1..],
                if Continues(cache, events[0]) then Follow(cache.cards, events[0].entry.value, id) else id)
  }

  /** Entries that join the branch are new, and the branch stays well formed. Events that
      do not continue the branch are arbitrary. */
  predicate GoodRun(cache: Cache, seen: set<Id>, events: seq<AppendEvent>)
    decreases |events|
  {
    events == [] ||
    if Continues(cache, events[0]) then
      var entry := events[0].entry.value;
      && entry.id !in seen && WellFormed(cache.cards, entry)
      && GoodRun(After(cache, events[0]), seen + {entry.id}, events[1..])
    else GoodRun(After(cache, events[0]), seen, events[1..])
  }

  lemma OffBranch(cache: Cache, event: AppendEvent)
    requires !Continues(cache, event)
    ensures var after := After(cache, event);
            && after.cards == cache.cards && after.turnDetailsById == cache.turnDetailsById
            && after.activeBranchEntryIds == cache.activeBranchEntryIds
  {
    hide AppendTurnCard, DetailsAfter, SelectedEntries, EventSnapshot;
  }

  /** A detail that reaches its card's leaf does so after every run of live events on a
      well-formed branch, under whatever id its card then has; it has only grown. */
  lemma {:induction false} DetailFollowsCard(cache: Cache, seen: set<Id>, events: seq<AppendEvent>, id: Id)
    requires Steady(cache, seen) && Covers(cache, id) && DetailSeen(cache, id, seen) && GoodRun(cache, seen, events)
    ensures var after := RunEvents(cache, events);
            var next := FollowRun(cache, events, id);
            && Covers(after, next)
            && cache.turnDetailsById[id] <= after.turnDetailsById[next]
    decreases |events|
  {
    if events != [] {
      var event := events[0];
      var after := After(cache, event);
      if Continues(cache, event) {
        DetailStep(cache, seen, event, id);
        hide After, AppendTurnCard, Steady, Covers, DetailSeen, Follow;
        DetailFollowsCard(after, seen + {event.entry.value.id}, events[1..], Follow(cache.cards, event.entry.value, id));
      } else {
        OffBranch(cache, event);
        hide After, AppendTurnCard;
        DetailFollowsCard(after, seen, events[1..], id);
      }
    }
  }

  // ---------- A branch that is not well formed ----------

  lemma RunTwo(cache: Cache, first: AppendEvent, second: AppendEvent)
    ensures RunEvents(cache, [first, second]) == After(After(cache, first), second)
  {
    hide After;
    assert [first, second][1..] == [second];
    assert [second][1..] == [];
    var middle := After(cache, first);
    assert RunEvents(cache, [first, second]) == RunEvents(middle, [second]);
    assert RunEvents(middle, [second]) == RunEvents(After(middle, second), []);
  }

  /** Below a finished turn whose detail is loaded, a compaction summary and then any entry other
      than a turn start: the card takes up that entry, its detail does not. */
  lemma StrayEntryIsLost(cache: Cache, seen: set<Id>, summary: AppendEvent, stray: AppendEvent)
    requires Filed(cache.cards, seen) && cache.turnDetailsById.Keys <= seen && cache.cards.order != []
    requires LastCard(cache.cards, seen).status == Completed
    requires var last := cache.cards.order[|cache.cards.order| - 1]; Covers(cache, last) && DetailSeen(cache, last, seen)
    requires Continues(cache, summary) && summary.entry.value.item.CompactionSummary? && summary.entry.value.id !in seen
    requires Continues(After(cache, summary), stray) && Plain(stray.entry.value.item)
    requires stray.entry.value.id !in seen + {summary.entry.value.id}
    ensures var last := cache.cards.order[|cache.cards.order| - 1];
            var end := RunEvents(cache, [summary, stray]);
            var id := Follow(cache.cards, stray.entry.value, last);
            && id in end.cards.byId && end.cards.byId[id].activeLeafId == stray.entry.value.id
            && !Covers(end, id)
  {
    var last := cache.cards.order[|cache.cards.order| - 1];
    var middle := After(cache, summary);
    var known := seen + {summary.entry.value.id};
    AfterFields(cache, summary);
    OtherDetails(cache, seen, summary.entry.value);
    var card := OtherCards(cache.cards, seen, summary.entry.value);
    AppendFiled(cache.cards, seen, summary.entry.value);
    var detail := cache.turnDetailsById[last];
    assert detail[|detail| - 1] in detail;
    hide After, AppendTurnCard, UpdateTurnCard, DetailsAfter, Follow;
    LastDetailStep(middle, known, stray);
    RunTwo(cache, summary, stray);
  }

  // ---------- Details that arrive late ----------

  function Children(parent: Id, byId: map<Id, Entry>): set<Id> {
    set id | id in byId && DisplayParent(byId[id]) == Some(parent)
  }

  predicate OnlyChild(parent: Id, byId: map<Id, Entry>, id: Id) { Children(parent, byId) == {id} }

  /** The cached row that is the only display child of `parent`, if there is exactly one. */
  ghost function FindOnlyDisplayChild(parent: Id, byId: map<Id, Entry>): (child: Option<Entry>)
    ensures child.Some? ==> exists id :: id in byId && byId[id] == child.value && OnlyChild(parent, byId, id)
    ensures child.None? ==> forall id :: !OnlyChild(parent, byId, id)
  {
    var ids := Children(parent, byId);
    if |ids| != 1 then None
    else
      Singleton(ids);
      var id := Any(ids);
      assert ids == {id};
      Some(byId[id])
  }

  /** `findOnlyDisplayChild`, visiting the rows in any order. */
  method FindOnlyDisplayChildLoop(parent: Id, byId: map<Id, Entry>) returns (child: Option<Entry>)
    ensures child == FindOnlyDisplayChild(parent, byId)
  {
    hide FindOnlyDisplayChild, DisplayParent;
    child := None;
    var rest := byId.Keys;
    ghost var found: Option<Id> := None;
    while rest != {}
      invariant rest <= byId.Keys && Children(parent, byId) - rest == (if found.None? then {} else {found.value})
      invariant found.Some? ==> found.value in byId
      invariant child == if found.None? then None else Some(byId[found.value])
      decreases |rest|
    {
      ghost var w: Id := Any(rest);
      assert w in rest;
      var id :| id in rest;
      rest := rest - {id};
      if DisplayParent(byId[id]) != Some(parent) { continue; }
      if child.Some? {
        TwoChildren(parent, byId, found.value, id);
        return None;
      }
      child, found := Some(byId[id]), Some(id);
    }
    ExactlyOne(parent, byId, found);
  }

  lemma TwoChildren(parent: Id, byId: map<Id, Entry>, first: Id, second: Id)
    requires first != second && first in Children(parent, byId) && second in Children(parent, byId)
    ensures FindOnlyDisplayChild(parent, byId).None?
  {
    if |Children(parent, byId)| == 1 {
      Singleton(Children(parent, byId));
    }
  }

  lemma ExactlyOne(parent: Id, byId: map<Id, Entry>, found: Option<Id>)
    requires found.Some? ==> found.value in byId
    requires Children(parent, byId) == if found.None? then {} else {found.value}
    ensures FindOnlyDisplayChild(parent, byId) == if found.None? then None else Some(byId[found.value])
  {
  }

  function RowIds(byId: map<Id, Entry>): set<Id> { set id | id in byId :: byId[id].id }

  /** `extendTurnDetailEntryIds`: each step adds a row id not yet listed, so it ends. */
  ghost function Extend(ids: seq<Id>, leaf: Id, byId: map<Id, Entry>): seq<Id>
    decreases |RowIds(byId) - Members(ids)|
  {
    if ids == [] || ids[|ids| - 1] == leaf then ids
    else
      var child := FindOnlyDisplayChild(ids[|ids| - 1], byId);
      if child.None? || child.value.id in ids then ids
      else
        MembersSnoc(ids, child.value.id);
        SmallerSet(RowIds(byId) - Members(ids + [child.value.id]), RowIds(byId) - Members(ids));
        Extend(ids + [child.value.id], leaf, byId)
  }

  method ExtendLoop(entryIds: seq<Id>, leaf: Id, byId: map<Id, Entry>) returns (ids: seq<Id>)
    ensures ids == Extend(entryIds, leaf, byId)
  {
    ids := entryIds;
    var seen := Members(ids);
    var current := Last(ids);
    while current.Some? && current.value != leaf
      invariant current == Last(ids) && seen == Members(ids)
      invariant Extend(entryIds, leaf, byId) == Extend(ids, leaf, byId)
      decreases |RowIds(byId) - seen|
    {
      hide FindOnlyDisplayChild;
      var child := FindOnlyDisplayChildLoop(current.value, byId);
      assert forall id :: id in ids <==> id in seen;
      if child.None? || child.value.id in seen { break; }
      ChildIsRow(current.value, byId);
      MembersSnoc(ids, child.value.id);
      SmallerSet(RowIds(byId) - Members(ids + [child.value.id]), RowIds(byId) - Members(ids));
      ids := ids + [child.value.id];
      seen := seen + {child.value.id};
      current := Some(child.value.id);
    }
  }

  lemma ChildIsRow(parent: Id, byId: map<Id, Entry>)
    ensures FindOnlyDisplayChild(parent, byId).Some? ==> FindOnlyDisplayChild(parent, byId).value.id in RowIds(byId)
  {
  }

  lemma ExtendStep(ids: seq<Id>, leaf: Id, byId: map<Id, Entry>)
    requires ids != [] && ids[|ids| - 1] != leaf
    requires var child := FindOnlyDisplayChild(ids[|ids| - 1], byId); child.Some? && child.value.id !in ids
    ensures var id := FindOnlyDisplayChild(ids[|ids| - 1], byId).value.id;
            && Extend(ids, leaf, byId) == Extend(ids + [id], leaf, byId)
            && |RowIds(byId) - Members(ids + [id])| < |RowIds(byId) - Members(ids)|
  {
    var id := FindOnlyDisplayChild(ids[|ids| - 1], byId).value.id;
    MembersSnoc(ids, id);
    SmallerSet(RowIds(byId) - Members(ids + [id]), RowIds(byId) - Members(ids));
  }

  /** Each row of the path is the only cached display child of the one before it. */
  ghost predicate Links(from: Id, path: seq<Id>, byId: map<Id, Entry>)
    decreases |path|
  {
    path == [] ||
    (path[0] in byId && byId[path[0]].id == path[0] && OnlyChild(from, byId, path[0]) && Links(path[0], path[1..], byId))
  }

  /** Rows are cached under their own ids. */
  ghost predicate KeyedRows(byId: map<Id, Entry>) { forall id | id in byId :: byId[id].id == id }

  /** The extension follows an unbranched path of new rows, and stops at the leaf. */
  lemma {:induction false} ExtendIsLinked(ids: seq<Id>, leaf: Id, byId: map<Id, Entry>) returns (path: seq<Id>)
    requires KeyedRows(byId) && ids != []
    ensures Extend(ids, leaf, byId) == ids + path
    ensures Links(ids[|ids| - 1], path, byId)
    ensures forall i | 0 <= i < |path| :: path[i] !in ids
    ensures Distinct(path) && forall i | 0 <= i < |path| - 1 :: path[i] != leaf
    decreases |RowIds(byId) - Members(ids)|
  {
    path := [];
    if ids[|ids| - 1] != leaf {
      var child := FindOnlyDisplayChild(ids[|ids| - 1], byId);
      if child.Some? && child.value.id !in ids {
        var id := child.value.id;
        ExtendStep(ids, leaf, byId);
        assert id in byId && OnlyChild(ids[|ids| - 1], byId, id);
        hide FindOnlyDisplayChild, OnlyChild, Members, RowIds, KeyedRows, Extend;
        var rest := ExtendIsLinked(ids + [id], leaf, byId);
        path := [id] + rest;
        assert path[1..] == rest;
        assert Links(ids[|ids| - 1], path, byId);
        assert ids + path == (ids + [id]) + rest;
        hide Links;
        assert rest != [] ==> id != leaf;
        NewPath(ids, id, rest, leaf);
      }
    }
  }

  lemma NewPath(ids: seq<Id>, id: Id, rest: seq<Id>, leaf: Id)
    requires id !in ids && Distinct(rest) && forall i | 0 <= i < |rest| :: rest[i] !in ids + [id]
    requires (rest != [] ==> id != leaf) && forall i | 0 <= i < |rest| - 1 :: rest[i] != leaf
    ensures var path := [id] + rest;
            && Distinct(path) && (forall i | 0 <= i < |path| :: path[i] !in ids)
            && (forall i | 0 <= i < |path| - 1 :: path[i] != leaf)
  {
    assert id in ids + [id];
    assert forall x | x in ids :: x in ids + [id];
  }

  /** A path of new rows to the leaf, linked without branching, is followed to its end. */
  lemma {:induction false} ExtendReaches(ids: seq<Id>, leaf: Id, byId: map<Id, Entry>, path: seq<Id>)
    requires ids != [] && path != [] && Links(ids[|ids| - 1], path, byId) && path[|path| - 1] == leaf
    requires Distinct(ids + path)
    ensures Extend(ids, leaf, byId) == ids + path
    decreases |path|
  {
    var n := |ids|;
    var all := ids + path;
    assert all[n] == path[0] && all[|all| - 1] == leaf && all[n - 1] == ids[n - 1];
    assert ids[n - 1] != leaf;
    ExactlyOne(ids[n - 1], byId, Some(path[0]));
    assert path[0] !in ids by {
      assert forall i | 0 <= i < n :: all[i] == ids[i];
    }
    var more := ids + [path[0]];
    var rest := path[1..];
    assert more + rest == all;
    hide Links, OnlyChild, FindOnlyDisplayChild;
    if rest == [] {
      assert Extend(more, leaf, byId) == more;
    } else {
      ExtendReaches(more, leaf, byId, rest);
    }
  }

  // ---------- applyTurnDetail ----------

  /** `applyTurnDetail`; the flag says whether the detail was taken. */
  ghost function ApplyTurnDetail(cache: Cache, sessionId: SessionId, turnId: Id, entries: seq<Entry>): (Cache, bool) {
    if cache.sessionId != Some(sessionId) || turnId !in cache.cards.byId || entries == [] then (cache, false)
    else
      var card := cache.cards.byId[turnId];
      if entries[|entries| - 1].id != card.activeLeafId && card.status != Open then (cache, false)
      else
        var entriesById := MergeEntryBodies(cache.entriesById, entries);
        (cache.(entriesById := entriesById,
                turnDetailsById := cache.turnDetailsById[turnId := Extend(EntryIds(entries), card.activeLeafId, entriesById)]),
         true)
  }

  method ApplyTurnDetailLoop(cache: Cache, sessionId: SessionId, turnId: Id, entries: seq<Entry>)
    returns (next: Cache, applied: bool)
    ensures (next, applied) == ApplyTurnDetail(cache, sessionId, turnId, entries)
  {
    if cache.sessionId != Some(sessionId) { return cache, false; }
    if turnId !in cache.cards.byId || entries == [] { return cache, false; }
    var card := cache.cards.byId[turnId];
    if entries[|entries| - 1].id != card.activeLeafId && card.status != Open { return cache, false; }
    var entriesById := MergeEntryBodiesLoop(cache.entriesById, entries);
    var ids := ExtendLoop(EntryIds(entries), card.activeLeafId, entriesById);
    return cache.(entriesById := entriesById, turnDetailsById := cache.turnDetailsById[turnId := ids]), true;
  }

  /** A detail with entries is taken exactly for a loaded turn of the cached session that is
      running or whose leaf it ends at; it then begins with the entries sent, their bodies are
      cached, and no other turn's detail moves. Any other leaves the cache as it was. */
  lemma DetailTakenIff(cache: Cache, sessionId: SessionId, turnId: Id, entries: seq<Entry>)
    ensures var (next, taken) := ApplyTurnDetail(cache, sessionId, turnId, entries);
            && (taken <==>
                  cache.sessionId == Some(sessionId) && turnId in cache.cards.byId && entries != [] &&
                  (cache.cards.byId[turnId].status == Open || Last(EntryIds(entries)) == Some(cache.cards.byId[turnId].activeLeafId)))
            && (!taken ==> next == cache)
            && (taken ==>
                  && turnId in next.turnDetailsById && EntryIds(entries) <= next.turnDetailsById[turnId]
                  && (forall other | other != turnId ::
                        (other in next.turnDetailsById <==> other in cache.turnDetailsById) &&
                        (other in cache.turnDetailsById ==> next.turnDetailsById[other] == cache.turnDetailsById[other]))
                  && next.entriesById == MergeEntryBodies(cache.entriesById, entries)
                  && next.cards == cache.cards && next.activeBranchEntryIds == cache.activeBranchEntryIds)
  {
    if turnId in cache.cards.byId {
      ExtendKeeps(EntryIds(entries), cache.cards.byId[turnId].activeLeafId, MergeEntryBodies(cache.entriesById, entries));
    }
    hide Extend, MergeEntryBodies;
  }

  lemma {:induction false} ExtendKeeps(ids: seq<Id>, leaf: Id, byId: map<Id, Entry>)
    ensures ids <= Extend(ids, leaf, byId)
    decreases |RowIds(byId) - Members(ids)|
  {
    if ids != [] && ids[|ids| - 1] != leaf {
      var child := FindOnlyDisplayChild(ids[|ids| - 1], byId);
      if child.Some? && child.value.id !in ids {
        ExtendStep(ids, leaf, byId);
        hide FindOnlyDisplayChild, Members, RowIds, Extend;
        ExtendKeeps(ids + [child.value.id], leaf, byId);
      }
    }
  }

  /** There is an unbranched way from the detail's last entry to the leaf through cached rows
      that the detail does not list. */
  ghost predicate Linked(ids: seq<Id>, leaf: Id, byId: map<Id, Entry>) {
    ids != [] &&
    (ids[|ids| - 1] == leaf ||
     exists path: seq<Id> :: path != [] && path[|path| - 1] == leaf && Links(ids[|ids| - 1], path, byId) && Distinct(ids + path))
  }

  /** A detail that is taken covers its card exactly when cached rows link it to the card's
      leaf without branching; in particular a closed turn's detail always does. */
  lemma AppliedDetailCovers(cache: Cache, sessionId: SessionId, turnId: Id, entries: seq<Entry>)
    requires var (_, applied) := ApplyTurnDetail(cache, sessionId, turnId, entries); applied
    requires KeyedRows(MergeEntryBodies(cache.entriesById, entries)) && Distinct(EntryIds(entries))
    ensures var (next, _) := ApplyTurnDetail(cache, sessionId, turnId, entries);
            var card := cache.cards.byId[turnId];
            && (Covers(next, turnId) <==> Linked(EntryIds(entries), card.activeLeafId, next.entriesById))
            && (card.status != Open ==> next.turnDetailsById[turnId] == EntryIds(entries))
  {
    var byId := MergeEntryBodies(cache.entriesById, entries);
    var ids := EntryIds(entries);
    var leaf := cache.cards.byId[turnId].activeLeafId;
    hide MergeEntryBodies;
    if Linked(ids, leaf, byId) && ids[|ids| - 1] != leaf {
      var path: seq<Id> :| path != [] && path[|path| - 1] == leaf && Links(ids[|ids| - 1], path, byId) && Distinct(ids + path);
      ExtendReaches(ids, leaf, byId, path);
    }
    if Last(Extend(ids, leaf, byId)) == Some(leaf) && ids[|ids| - 1] != leaf {
      var path := ExtendIsLinked(ids, leaf, byId);
      assert path != [];
      assert (ids + path)[|ids + path| - 1] == path[|path| - 1];
      assert Distinct(ids + path);
      assert Linked(ids, leaf, byId);
    }
  }
}
