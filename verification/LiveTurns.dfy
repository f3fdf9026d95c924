/** Live entries between turn pages: while the branch tip is the leaf the loaded
    turns belong to, folding a live entry into the loaded cards keeps them the
    end of the daemon's list. */
module LiveTurns {
  import opened CodeUnits
  import opened Collections
  import opened Transcript
  import opened TurnCards
  import opened SelectedSessionCache
  import opened TurnPages
  import TurnDetails
  import opened CardLists
  import opened DaemonCards

  // ---------- One entry on a list of cards ----------

  lemma ReplacedOrder(ids: seq<Id>, start: nat, id: Id)
    requires start < |ids|
    ensures var order := ids[start..]; order[..|order| - 1] + [id] == (ids[..|ids| - 1] + [id])[start..]
  {
  }

  lemma ReplacedKeys(cards: Cards, id: Id, card: TurnCard)
    requires cards.order != [] && Distinct(cards.order) && cards.byId.Keys == Members(cards.order)
    ensures ReplaceLast(cards, id, card).byId.Keys == Members(ReplaceLast(cards, id, card).order)
  {
    var m := |cards.order| - 1;
    assert cards.order == cards.order[..m] + [cards.order[m]];
    MembersSnoc(cards.order[..m], cards.order[m]);
    MembersSnoc(cards.order[..m], id);
    assert cards.order[m] !in Members(cards.order[..m]);
    hide Members, Distinct;
  }

  lemma ReplacedCards(byId: map<Id, TurnCard>, all: seq<TurnCard>, gone: Id, card: TurnCard)
    requires all != [] && SameCards(byId, all) && Distinct(CardIds(all[..|all| - 1] + [card]))
    ensures SameCards((byId - {gone})[card.id := card], all[..|all| - 1] + [card])
  {
    var n := |all| - 1;
    var next := all[..n] + [card];
    var ids := CardIds(next);
    forall i | 0 <= i < n
      ensures next[i] == all[i] && next[i].id != card.id
    {
      assert ids[i] != ids[n];
    }
    hide Distinct, CardIds;
  }

  /** The last card gives way to `card`. */
  lemma ReplacedShows(cards: Cards, all: seq<TurnCard>, start: nat, card: TurnCard)
    requires ShowsFrom(cards, all, start) && start < |all| && Distinct(CardIds(all))
    requires Distinct(CardIds(all[..|all| - 1] + [card]))
    ensures ShowsFrom(ReplaceLast(cards, card.id, card), all[..|all| - 1] + [card], start)
  {
    var n := |all| - 1;
    assert CardIds(all[..n] + [card]) == CardIds(all)[..n] + [card.id];
    ReplacedOrder(CardIds(all), start, card.id);
    DistinctTail(CardIds(all), start);
    assert cards.order != [];
    hide CardIds, Distinct, Members, SameCards;
    ReplacedKeys(cards, card.id, card);
    ReplacedCards(cards.byId, all, cards.order[|cards.order| - 1], card);
  }

  /** One more card at the end. */
  lemma AddedShows(cards: Cards, all: seq<TurnCard>, start: nat, card: TurnCard)
    requires ShowsFrom(cards, all, start) && Distinct(CardIds(all + [card]))
    ensures ShowsFrom(AddLast(cards, card), all + [card], start)
  {
    var n := |all|;
    var next := all + [card];
    var ids := CardIds(next);
    var added := AddLast(cards, card);
    assert ids == CardIds(all) + [card.id];
    assert added.order == ids[start..];
    MembersSnoc(cards.order, card.id);
    forall i | 0 <= i < |next| && next[i].id in added.byId
      ensures added.byId[next[i].id] == next[i]
    {
      if i < n {
        assert ids[i] != ids[n];
        assert next[i] == all[i];
      }
    }
  }

  ghost predicate HoldsLast(cards: Cards, all: seq<TurnCard>, start: nat) {
    ShowsFrom(cards, all, start) && (start < |all| || all == [])
  }

  /** What `appendTurnCard` does to the loaded end of a list is what happens to the list. */
  lemma AppendShows(cards: Cards, all: seq<TurnCard>, start: nat, entry: Entry)
    requires HoldsLast(cards, all, start) && Distinct(CardIds(all)) && Distinct(CardIds(ListAfter(all, entry)))
    ensures ShowsFrom(AppendTurnCard(cards, entry), ListAfter(all, entry), start)
  {
    if all == [] {
      EmptyShows(cards, entry);
    } else {
      var n := |all| - 1;
      var previous := all[n];
      var order := cards.order;
      LastLoaded(cards, all, start);
      hide ShowsFrom, UpdateTurnCard, StableId, CardIds, Distinct;
      if entry.item.CompactionSummary? && previous.status != Open {
      } else if entry.item.TurnStarted? && previous.startEntryId != Some(entry.id) {
        AddedShows(cards, all, start, UpdateTurnCard(InitialTurnCard(entry), entry));
      } else if !entry.item.CompactionSummary? && previous.status == Compacted {
        AddedShows(cards, all, start, Renamed(UpdateTurnCard(InitialTurnCardFromCompactionResume(previous, entry), entry)));
      } else {
        var card := Renamed(UpdateTurnCard(previous, entry));
        assert AppendTurnCard(cards, entry) == ReplaceCard(cards, previous, entry);
        assert ReplaceCard(cards, previous, entry) == ReplaceLast(cards, card.id, card);
        ReplacedShows(cards, all, start, card);
      }
    }
  }

  lemma LastLoaded(cards: Cards, all: seq<TurnCard>, start: nat)
    requires ShowsFrom(cards, all, start) && start < |all|
    ensures var last := all[|all| - 1];
            && cards.order != [] && cards.order[|cards.order| - 1] == last.id
            && last.id in cards.byId && cards.byId[last.id] == last
  {
    assert cards.order[|cards.order| - 1] == CardIds(all)[|all| - 1];
    assert cards.order[|cards.order| - 1] in Members(cards.order);
  }

  lemma EmptyShows(cards: Cards, entry: Entry)
    requires ShowsFrom(cards, [], 0)
    ensures ShowsFrom(AppendTurnCard(cards, entry), ListAfter([], entry), 0)
  {
    assert cards.order == [];
    assert cards.byId.Keys == {};
    assert cards.byId == map[];
    hide UpdateTurnCard, StableId;
    if !entry.item.CompactionSummary? {
      var card := Renamed(UpdateTurnCard(InitialTurnCard(entry), entry));
      assert ListAfter([], entry) == [card];
      assert CardIds([card]) == [card.id] && [card.id][0] == card.id;
      assert AppendTurnCard(cards, entry) == Cards(map[card.id := card], [card.id]);
    }
  }

  // ---------- The daemon's lists ----------

  /** The branch, root first, that each revision and leaf stands for. */
  type Branches = map<TurnsKey, seq<Entry>>

  ghost predicate HonestLists(server: Server, branches: Branches, rows: map<Id, Entry>) {
    && ValidServer(server, rows)
    && forall key | key in server ::
         && key in branches && FreshIds(branches[key]) && HasSequences(branches[key])
         && server[key].cards == CardsOf(branches[key])
  }

  /** The branch has grown by `added`; older cursors stand where they stood. */
  ghost predicate GrownBy(server: Server, branches: Branches, before: TurnsKey, after: TurnsKey, added: seq<Entry>) {
    && before in branches && after in branches && before in server && after in server
    && branches[after] == branches[before] + added
    && forall cursor | cursor in server[before].position ::
         cursor in server[after].position && server[after].position[cursor] == server[before].position[cursor]
  }

  // ---------- Steps ----------

  datatype LiveStep = FromServer(step: TurnPages.Step) | EventArrives(event: AppendEvent)

  function ApplyLive(cache: Cache, step: LiveStep): Cache {
    match step
    case FromServer(update) => TurnPages.Apply(cache, update)
    case EventArrives(event) => ApplyAppended(cache, event).0
  }

  /** The event is for this cache and leaves a trace in it. */
  predicate Concerns(cache: Cache, event: AppendEvent) {
    cache.sessionId == Some(event.sessionId) && cache.snapshot.Some? && event.entry.Some?
  }

  /** The revision and leaf of the turns after an event that does not call for a reload. */
  function KeyAfter(cache: Cache, event: AppendEvent): TurnsKey
    requires cache.sessionId.Some? && cache.turnTranscriptRevision.Some?
  {
    TurnsKey(cache.sessionId.value, OrElse(event.transcriptRevision, cache.turnTranscriptRevision.value),
             Or(event.activeLeafId, cache.turnActiveLeafId))
  }

  /** An entry that joins the branch arrives while the tip of the branch is the leaf of the
      loaded turns, and carries the revision and leaf of the branch it makes, which is one on
      which the daemon and the client take up entries alike; an entry of another branch that does
      not become the leaf leaves the branch as it is. */
  ghost predicate HonestEvent(server: Server, branches: Branches, cache: Cache, event: AppendEvent)
    requires cache.sessionId.Some? && cache.turnTranscriptRevision.Some?
  {
    if !Concerns(cache, event) then true
    else if TurnDetails.Continues(cache, event) then
      && Last(cache.activeBranchEntryIds) == cache.turnActiveLeafId
      && GrownBy(server, branches, CacheKey(cache), KeyAfter(cache, event), [event.entry.value])
      && Kept(branches[KeyAfter(cache, event)])
    else
      event.activeLeafId == Some(event.entry.value.id) ||
      GrownBy(server, branches, CacheKey(cache), KeyAfter(cache, event), [])
  }

  /** As for pages alone; older pages are requested with a cursor, and the newest page is empty
      only when there are no turns. */
  ghost predicate AllowedLive(server: Server, branches: Branches, rows: map<Id, Entry>, cache: Cache, step: LiveStep) {
    match step
    case FromServer(update) =>
      && TurnPages.Allowed(server, rows, update)
      && (update.PageArrives? ==>
            && (update.mode == Prepend ==> update.page.beforeEntryId.Some?)
            && (update.mode == Replace && update.page.cards == [] ==> server[PageKey(update.page)].cards == []))
    case EventArrives(event) =>
      && (event.entry.Some? ==> AreRows(rows, [event.entry.value]))
      && (cache.transcriptTurnsLoaded && cache.sessionId.Some? && cache.turnTranscriptRevision.Some? ==>
            HonestEvent(server, branches, cache, event))
  }

  ghost predicate LoadedOk(cache: Cache, server: Server, rows: map<Id, Entry>) {
    && TurnPages.Inv(cache, server, rows) && cache.transcriptTurnsLoaded
    && (cache.cards.order == [] ==> server[CacheKey(cache)].cards == [])
  }

  ghost predicate LiveInv(cache: Cache, server: Server, rows: map<Id, Entry>) {
    && Rows(rows, cache.entriesById)
    && (cache.transcriptTurnsLoaded ==> LoadedOk(cache, server, rows))
    && (!cache.transcriptTurnsLoaded ==> cache.turnBeforeEntryId.None?)
  }

  lemma OtherUpdateKeeps(cache: Cache, update: TurnPages.Step, server: Server, rows: map<Id, Entry>)
    requires LiveInv(cache, server, rows) && TurnPages.Allowed(server, rows, update) && !update.PageArrives?
    ensures LiveInv(TurnPages.Apply(cache, update), server, rows)
  {
    OtherStepsSkipTurns(cache, update);
    OtherStepsKeepRows(cache, update, server, rows);
    hide TurnPages.Apply, Rows, ShowsFrom;
  }

  lemma ReplaceIsLive(cache: Cache, page: TurnsPage, server: Server, rows: map<Id, Entry>)
    requires ValidServer(server, rows) && LiveInv(cache, server, rows) && Honest(server, page)
    requires page.beforeEntryId.None? && (page.cards == [] ==> server[PageKey(page)].cards == [])
    ensures LiveInv(ApplyTranscriptTurns(cache, page, Replace), server, rows)
  {
    if Admits(cache, page, Replace) {
      ReplaceKeeps(cache, page, server, rows);
      PageFields(cache, page, Replace);
      hide PageApplied, Honest, Rows, IncomingCards, ValidServer;
      var next := ApplyTranscriptTurns(cache, page, Replace);
      assert next.cards.order == CardIds(page.cards);
      assert CacheKey(next) == PageKey(page);
    }
  }

  lemma PrependGrows(cache: Cache, page: TurnsPage)
    ensures cache.cards.order != [] ==> PageApplied(cache, page, Prepend).cards.order != []
  {
    PageFields(cache, page, Prepend);
    var ids := NotCached(CardIds(page.cards), cache.cards.byId);
    hide PageApplied, IncomingCards, NotCached;
    assert cache.cards.order != [] ==> cache.cards.order[0] in ids + cache.cards.order;
  }

  lemma PrependIsLive(cache: Cache, page: TurnsPage, server: Server, rows: map<Id, Entry>)
    requires ValidServer(server, rows) && LiveInv(cache, server, rows) && Honest(server, page) && page.beforeEntryId.Some?
    ensures LiveInv(ApplyTranscriptTurns(cache, page, Prepend), server, rows)
  {
    if Admits(cache, page, Prepend) {
      assert cache.transcriptTurnsLoaded;
      PrependKeeps(cache, page, server, rows);
      PageFields(cache, page, Prepend);
      PrependGrows(cache, page);
      var next := PageApplied(cache, page, Prepend);
      hide PageApplied, Honest, Rows, IncomingCards, ValidServer, Window, CardIds;
      assert CacheKey(next) == CacheKey(cache);
    }
  }

  /** The turn fields after an event. */
  lemma EventFields(cache: Cache, event: AppendEvent)
    requires Concerns(cache, event)
    ensures var next := ApplyAppended(cache, event).0;
            var joins := TurnDetails.Continues(cache, event);
            var reloads := !joins && event.activeLeafId == Some(event.entry.value.id);
            && next.sessionId == cache.sessionId && next.transcriptTurnsLoaded == cache.transcriptTurnsLoaded
            && next.turnHasMoreBefore == cache.turnHasMoreBefore && next.turnBeforeEntryId == cache.turnBeforeEntryId
            && next.entriesById == cache.entriesById[event.entry.value.id := event.entry.value]
            && next.cards == (if joins then AppendTurnCard(cache.cards, event.entry.value) else cache.cards)
            && next.turnTranscriptRevision ==
               (if reloads then cache.turnTranscriptRevision else Or(event.transcriptRevision, cache.turnTranscriptRevision))
            && next.turnActiveLeafId ==
               (if reloads then cache.turnActiveLeafId else Or(event.activeLeafId, cache.turnActiveLeafId))
  {
    hide AppendTurnCard, DetailsAfter, SelectedEntries, EventSnapshot;
  }

  lemma CursorStays(before: ServerTurns, after: ServerTurns, cursor: Option<Id>)
    requires IsCursor(before, cursor)
    requires forall c | c in before.position :: c in after.position && after.position[c] == before.position[c]
    ensures IsCursor(after, cursor) && Position(after, cursor) == Position(before, cursor)
  {
    if cursor.Some? {
      var c: Id := cursor.value;
      assert c in before.position;
    }
  }

  /** The window moves with the branch: same first card, same cursor, one entry more at the end. */
  lemma WindowGrows(cache: Cache, next: Cache, before: ServerTurns, after: ServerTurns, entry: Entry)
    requires Window(cache, before) && Distinct(CardIds(before.cards)) && Distinct(CardIds(after.cards))
    requires cache.cards.order == [] ==> before.cards == []
    requires after.cards == ListAfter(before.cards, entry) && next.cards == AppendTurnCard(cache.cards, entry)
    requires next.turnHasMoreBefore == cache.turnHasMoreBefore && next.turnBeforeEntryId == cache.turnBeforeEntryId
    requires forall cursor | cursor in before.position ::
               cursor in after.position && after.position[cursor] == before.position[cursor]
    ensures Window(next, after) && (next.cards.order == [] ==> after.cards == [])
  {
    var start := FirstLoaded(cache, before);
    assert HoldsLast(cache.cards, before.cards, start);
    CursorStays(before, after, cache.turnBeforeEntryId);
    hide AppendTurnCard, Distinct;
    AppendShows(cache.cards, before.cards, start, entry);
    ListGrows(before.cards, entry);
    hide ListAfter;
    WindowFrom(next, after, start);
    assert |next.cards.order| == |after.cards| - start;
  }

  lemma ListGrows(all: seq<TurnCard>, entry: Entry)
    ensures |all| <= |ListAfter(all, entry)|
  {
  }

  lemma SameWindow(cache: Cache, next: Cache, before: ServerTurns, after: ServerTurns)
    requires Window(cache, before) && after.cards == before.cards && next.cards == cache.cards
    requires next.turnHasMoreBefore == cache.turnHasMoreBefore && next.turnBeforeEntryId == cache.turnBeforeEntryId
    requires forall cursor | cursor in before.position ::
               cursor in after.position && after.position[cursor] == before.position[cursor]
    ensures Window(next, after)
  {
    CursorStays(before, after, cache.turnBeforeEntryId);
    hide ShowsFrom;
  }

  lemma RowAdded(rows: map<Id, Entry>, byId: map<Id, Entry>, entry: Entry)
    requires Rows(rows, byId) && AreRows(rows, [entry])
    ensures Rows(rows, byId[entry.id := entry])
  {
    assert [entry][0] == entry;
  }

  /** On a kept branch the daemon's list takes up an entry as the client's does. */
  lemma DaemonGrows(entries: seq<Entry>, entry: Entry)
    requires FreshIds(entries) && HasSequences(entries)
    requires FreshIds(entries + [entry]) && HasSequences(entries + [entry]) && Kept(entries + [entry])
    ensures CardsOf(entries + [entry]) == ListAfter(CardsOf(entries), entry)
  {
    var longer := entries + [entry];
    assert longer[..|longer| - 1] == entries;
    hide FreshIds, HasSequences, CardsOf, BranchCards, CourseOf, ListAfter;
    KeptBefore(longer);
    KeptAgree(longer);
    KeptAgree(entries);
    BranchCardsSnoc(entries, entry);
  }

  lemma JoiningEvent(cache: Cache, event: AppendEvent, server: Server, branches: Branches, rows: map<Id, Entry>)
    requires HonestLists(server, branches, rows) && LoadedOk(cache, server, rows) && Concerns(cache, event)
    requires AreRows(rows, [event.entry.value]) && TurnDetails.Continues(cache, event)
    requires HonestEvent(server, branches, cache, event)
    ensures LoadedOk(ApplyAppended(cache, event).0, server, rows)
  {
    var entry := event.entry.value;
    var next := ApplyAppended(cache, event).0;
    var before, after := CacheKey(cache), KeyAfter(cache, event);
    EventFields(cache, event);
    RowAdded(rows, cache.entriesById, entry);
    DaemonGrows(branches[before], entry);
    assert ValidTurns(server[before], rows) && ValidTurns(server[after], rows);
    hide ApplyAppended, AppendTurnCard, ListAfter, Window, Distinct, CardIds, FreshIds, CardsOf, Kept, HasSequences, Rows, AreRows;
    assert server[after].cards == ListAfter(server[before].cards, entry);
    WindowGrows(cache, next, server[before], server[after], entry);
    assert CacheKey(next) == after;
  }

  lemma PassingEvent(cache: Cache, event: AppendEvent, server: Server, branches: Branches, rows: map<Id, Entry>)
    requires HonestLists(server, branches, rows) && LoadedOk(cache, server, rows) && Concerns(cache, event)
    requires AreRows(rows, [event.entry.value]) && !TurnDetails.Continues(cache, event)
    requires HonestEvent(server, branches, cache, event)
    ensures LoadedOk(ApplyAppended(cache, event).0, server, rows)
  {
    var next := ApplyAppended(cache, event).0;
    var before := CacheKey(cache);
    EventFields(cache, event);
    RowAdded(rows, cache.entriesById, event.entry.value);
    hide ApplyAppended, Window, FreshIds, CardsOf, HasSequences, Rows, AreRows;
    if event.activeLeafId == Some(event.entry.value.id) {
      SameWindow(cache, next, server[before], server[before]);
    } else {
      var after := KeyAfter(cache, event);
      assert branches[before] + [] == branches[before];
      SameWindow(cache, next, server[before], server[after]);
      assert CacheKey(next) == after;
    }
  }

  lemma EventKeeps(cache: Cache, event: AppendEvent, server: Server, branches: Branches, rows: map<Id, Entry>)
    requires HonestLists(server, branches, rows) && LiveInv(cache, server, rows)
    requires AllowedLive(server, branches, rows, cache, EventArrives(event))
    ensures LiveInv(ApplyAppended(cache, event).0, server, rows)
  {
    if Concerns(cache, event) {
      EventFields(cache, event);
      RowAdded(rows, cache.entriesById, event.entry.value);
      hide ApplyAppended, Rows, AreRows, HonestLists, HonestEvent;
      if cache.transcriptTurnsLoaded {
        if TurnDetails.Continues(cache, event) {
          JoiningEvent(cache, event, server, branches, rows);
        } else {
          PassingEvent(cache, event, server, branches, rows);
        }
      }
    }
  }

  lemma LiveStepKeeps(cache: Cache, step: LiveStep, server: Server, branches: Branches, rows: map<Id, Entry>)
    requires HonestLists(server, branches, rows) && LiveInv(cache, server, rows)
    requires AllowedLive(server, branches, rows, cache, step)
    ensures LiveInv(ApplyLive(cache, step), server, rows)
  {
    match step
    case EventArrives(event) =>
      hide LiveInv, AllowedLive, HonestLists;
      EventKeeps(cache, event, server, branches, rows);
    case FromServer(update) =>
      hide LiveInv, Honest, AreRows;
      if !update.PageArrives? {
        OtherUpdateKeeps(cache, update, server, rows);
      } else if update.mode == Replace {
        ReplaceIsLive(cache, update.page, server, rows);
      } else {
        PrependIsLive(cache, update.page, server, rows);
      }
  }

  function RunLive(cache: Cache, steps: seq<LiveStep>): Cache {
    if steps == [] then cache else ApplyLive(RunLive(cache, steps[..|steps| - 1]), steps[|steps| - 1])
  }

  ghost predicate AllowedRun(server: Server, branches: Branches, rows: map<Id, Entry>, cache: Cache, steps: seq<LiveStep>) {
    forall k | 0 <= k < |steps| :: AllowedLive(server, branches, rows, RunLive(cache, steps[..k]), steps[k])
  }

  lemma AllowedPrefix(server: Server, branches: Branches, rows: map<Id, Entry>, cache: Cache, steps: seq<LiveStep>, n: nat)
    requires AllowedRun(server, branches, rows, cache, steps) && n < |steps|
    ensures AllowedRun(server, branches, rows, cache, steps[..n])
    ensures AllowedLive(server, branches, rows, RunLive(cache, steps[..n]), steps[n])
  {
    hide AllowedLive, RunLive;
    assert forall k | 0 <= k < n :: steps[..n][..k] == steps[..k] && steps[..n][k] == steps[k];
  }

  lemma {:induction false} RunLiveKeeps(cache: Cache, steps: seq<LiveStep>, server: Server, branches: Branches, rows: map<Id, Entry>)
    requires HonestLists(server, branches, rows) && LiveInv(cache, server, rows)
    requires AllowedRun(server, branches, rows, cache, steps)
    ensures LiveInv(RunLive(cache, steps), server, rows)
  {
    if steps != [] {
      var n := |steps| - 1;
      AllowedPrefix(server, branches, rows, cache, steps, n);
      hide LiveInv, AllowedLive, AllowedRun, HonestLists, ApplyLive;
      RunLiveKeeps(cache, steps[..n], server, branches, rows);
      LiveStepKeeps(RunLive(cache, steps[..n]), steps[n], server, branches, rows);
    }
  }

  /** Each loaded card shows the turn at its place among the turns of the branch. */
  ghost predicate ShowsEnd(cards: Cards, turns: seq<Turn>) {
    var missing := |turns| - |cards.order|;
    && 0 <= missing
    && forall i | 0 <= i < |cards.order| ::
         cards.order[i] in cards.byId && Shows(cards.byId[cards.order[i]], turns[missing + i])
  }

  lemma EndShown(cards: Cards, entries: seq<Entry>, start: nat)
    requires NoLooseEntries(entries) && ShowsFrom(cards, CardsOf(entries), start)
    ensures ShowsEnd(cards, TurnViews(entries))
  {
    DaemonShowsViews(entries);
    hide CardsOf, TurnViews, Shows, NoLooseEntries;
    var all, turns := CardsOf(entries), TurnViews(entries);
    assert |cards.order| == |all| - start;
    forall i | 0 <= i < |cards.order|
      ensures cards.order[i] in cards.byId && Shows(cards.byId[cards.order[i]], turns[start + i])
    {
      assert cards.order[i] == CardIds(all)[start + i] == all[start + i].id;
      assert cards.order[i] in Members(cards.order);
    }
  }

  /** Live entries, pages and every other update together: the loaded turns are without
      duplicates, keyed exactly by their cards, and the last of the daemon's turns for the
      cached revision and leaf, so they show the last turns that building the views of that
      branch in one go would show, while nothing in it is loose. */
  lemma LiveTurnsStayASuffix(sessionId: Option<SessionId>, steps: seq<LiveStep>, server: Server, branches: Branches, rows: map<Id, Entry>)
    requires HonestLists(server, branches, rows) && AllowedRun(server, branches, rows, EmptyCache(sessionId), steps)
    ensures var cache := RunLive(EmptyCache(sessionId), steps);
            cache.transcriptTurnsLoaded ==>
              && cache.sessionId.Some? && cache.turnTranscriptRevision.Some? && CacheKey(cache) in server
              && var all := server[CacheKey(cache)].cards;
                 var missing := |all| - |cache.cards.order|;
                 && Distinct(cache.cards.order) && cache.cards.byId.Keys == Members(cache.cards.order)
                 && 0 <= missing && cache.cards.order == CardIds(all)[missing..]
                 && SameCards(cache.cards.byId, all)
                 && (!cache.turnHasMoreBefore ==> missing == 0)
                 && (NoLooseEntries(branches[CacheKey(cache)]) ==>
                       ShowsEnd(cache.cards, TurnViews(branches[CacheKey(cache)])))
  {
    EmptyIsLive(sessionId, server, rows);
    hide EmptyCache, LiveInv, RunLive, AllowedRun, HonestLists, Rows, ShowsFrom, SameCards, TurnViews, NoLooseEntries, ShowsEnd, CardIds, Distinct, Members;
    RunLiveKeeps(EmptyCache(sessionId), steps, server, branches, rows);
    var cache := RunLive(EmptyCache(sessionId), steps);
    if cache.transcriptTurnsLoaded {
      LiveIsLoaded(cache, server, rows);
      LoadedIsAnEnd(cache, server, branches, rows);
    }
  }

  lemma EmptyIsLive(sessionId: Option<SessionId>, server: Server, rows: map<Id, Entry>)
    ensures LiveInv(EmptyCache(sessionId), server, rows)
  {
  }

  lemma LiveIsLoaded(cache: Cache, server: Server, rows: map<Id, Entry>)
    requires LiveInv(cache, server, rows) && cache.transcriptTurnsLoaded
    ensures LoadedOk(cache, server, rows)
    ensures cache.sessionId.Some? && cache.turnTranscriptRevision.Some? && CacheKey(cache) in server
  {
    hide Window, Rows;
  }

  lemma LoadedIsAnEnd(cache: Cache, server: Server, branches: Branches, rows: map<Id, Entry>)
    requires HonestLists(server, branches, rows) && LoadedOk(cache, server, rows)
    ensures var all := server[CacheKey(cache)].cards;
            var missing := |all| - |cache.cards.order|;
            && Distinct(cache.cards.order) && cache.cards.byId.Keys == Members(cache.cards.order)
            && 0 <= missing && cache.cards.order == CardIds(all)[missing..]
            && SameCards(cache.cards.byId, all)
            && (!cache.turnHasMoreBefore ==> missing == 0)
            && (NoLooseEntries(branches[CacheKey(cache)]) ==>
                  ShowsEnd(cache.cards, TurnViews(branches[CacheKey(cache)])))
  {
    var key := CacheKey(cache);
    assert server[key].cards == CardsOf(branches[key]);
    var all := server[key].cards;
    assert ValidTurns(server[key], rows);
    hide Rows, SameCards, TurnViews, NoLooseEntries, ShowsEnd, FreshIds, CardsOf, HasSequences;
    DistinctTail(CardIds(all), |all| - |cache.cards.order|);
    if NoLooseEntries(branches[key]) {
      EndShown(cache.cards, branches[key], FirstLoaded(cache, server[key]));
    }
  }

  /** So a cache that calls itself usable shows the turns of its own snapshot's branch, if every
      entry that joined it arrived while the tip was the leaf of the loaded turns. */
  lemma UsableShowsItsBranch(sessionId: Option<SessionId>, steps: seq<LiveStep>, server: Server, branches: Branches, rows: map<Id, Entry>)
    requires HonestLists(server, branches, rows) && AllowedRun(server, branches, rows, EmptyCache(sessionId), steps)
    ensures var cache := RunLive(EmptyCache(sessionId), steps);
            Usable(cache, cache.sessionId) ==>
              && cache.snapshot.value.transcriptRevision.Some?
              && var key := TurnsKey(cache.sessionId.value, cache.snapshot.value.transcriptRevision.value,
                                     cache.snapshot.value.activeLeafId);
                 && key in server && |cache.cards.order| <= |server[key].cards|
                 && cache.cards.order == CardIds(server[key].cards)[|server[key].cards| - |cache.cards.order|..]
                 && SameCards(cache.cards.byId, server[key].cards)
                 && (NoLooseEntries(branches[key]) ==> ShowsEnd(cache.cards, TurnViews(branches[key])))
  {
    LiveTurnsStayASuffix(sessionId, steps, server, branches, rows);
    hide RunLive, AllowedRun, HonestLists, SameCards, ShowsEnd, NoLooseEntries, TurnViews, CardIds;
  }

  // ---------- Out of step ----------

  /** A turn start taken up out of step leaves the cards an end of the tip's turns exactly when
      they were one before. */
  lemma OpeningIff(cards: Cards, seen: set<Id>, all: seq<TurnCard>, start: nat, entry: Entry)
    requires Filed(cards, seen) && entry.id !in seen && entry.item.TurnStarted? && entry.sequence.Some?
    requires Distinct(CardIds(all)) && entry.id !in CardIds(all) && start <= |all|
    requires all != [] ==> all[|all| - 1].startEntryId != Some(entry.id)
    ensures ShowsFrom(AppendTurnCard(cards, entry), ListAfter(all, entry), start) <==> ShowsFrom(cards, all, start)
  {
    var card := UpdateTurnCard(InitialTurnCard(entry), entry);
    StartsAlike(entry);
    OpeningAdds(cards, seen, entry);
    ListOpens(all, entry);
    hide AppendTurnCard, ListAfter, UpdateTurnCard;
    FiledBelow(cards, seen, entry.id);
    if ShowsFrom(cards, all, start) {
      DistinctSnoc(CardIds(all), entry.id);
      assert CardIds(all + [card]) == CardIds(all) + [entry.id];
      AddedShows(cards, all, start, card);
    }
    if ShowsFrom(AddLast(cards, card), all + [card], start) {
      AddedShowedBefore(cards, all, start, card);
    }
  }

  lemma OpeningAdds(cards: Cards, seen: set<Id>, entry: Entry)
    requires Filed(cards, seen) && entry.id !in seen && entry.item.TurnStarted? && entry.sequence.Some?
    ensures var card := UpdateTurnCard(InitialTurnCard(entry), entry);
            AppendTurnCard(cards, entry) == AddLast(cards, card) && card.id == entry.id
  {
    if cards.order == [] {
      assert forall id :: id !in cards.byId;
      assert cards.byId == map[];
    } else {
      assert CardFiled(cards.order[|cards.order| - 1], LastCard(cards, seen), seen);
    }
  }

  lemma ListOpens(all: seq<TurnCard>, entry: Entry)
    requires entry.item.TurnStarted? && entry.sequence.Some?
    requires all != [] ==> all[|all| - 1].startEntryId != Some(entry.id)
    ensures ListAfter(all, entry) == all + [UpdateTurnCard(InitialTurnCard(entry), entry)]
  {
    StartsAlike(entry);
    hide UpdateTurnCard;
  }

  lemma FiledBelow(cards: Cards, seen: set<Id>, id: Id)
    requires Filed(cards, seen) && id !in seen
    ensures id !in cards.byId && id !in Members(cards.order)
  {
    assert forall k | k in cards.byId :: CardFiled(k, cards.byId[k], seen);
  }

  lemma DistinctSnoc(ids: seq<Id>, id: Id)
    requires Distinct(ids) && id !in ids
    ensures Distinct(ids + [id])
  {
  }

  lemma AddedShowedBefore(cards: Cards, all: seq<TurnCard>, start: nat, card: TurnCard)
    requires ShowsFrom(AddLast(cards, card), all + [card], start) && start <= |all|
    requires card.id !in cards.byId && card.id !in Members(cards.order) && card.id !in CardIds(all)
    ensures ShowsFrom(cards, all, start)
  {
    var n := |all|;
    var added := AddLast(cards, card);
    var ids := CardIds(all);
    MembersSnoc(cards.order, card.id);
    hide Members;
    assert cards.order == ids[start..] by {
      assert CardIds(all + [card]) == ids + [card.id];
      assert (ids + [card.id])[start..] == ids[start..] + [card.id];
      assert added.order[..|cards.order|] == cards.order;
      assert (ids[start..] + [card.id])[..n - start] == ids[start..];
    }
    assert cards.byId.Keys == added.byId.Keys - {card.id};
    forall i | 0 <= i < n && all[i].id in cards.byId
      ensures cards.byId[all[i].id] == all[i]
    {
      assert (all + [card])[i] == all[i] && ids[i] == all[i].id;
    }
  }

  /** Why the tip has to be the leaf of the loaded turns: otherwise the entry is folded into a
      turn of another branch, and the cards end with a turn that starts elsewhere. */
  lemma OutOfStepMixesBranches(cards: Cards, seen: set<Id>, entry: Entry, all: seq<TurnCard>, start: nat)
    requires Filed(cards, seen) && entry.id !in seen && TurnDetails.Updates(cards, seen, entry.item)
    requires LastCard(cards, seen).startEntryId.Some?
    requires all != [] && all[|all| - 1].startEntryId != LastCard(cards, seen).startEntryId
    ensures start < |all| ==> !ShowsFrom(AppendTurnCard(cards, entry), all, start)
  {
    var next := AppendTurnCard(cards, entry);
    TurnDetails.UpdatedCards(cards, seen, entry);
    if start < |all| && ShowsFrom(next, all, start) {
      LastLoaded(next, all, start);
      assert false;
    }
  }

  const FIRST: Entry := Entry(1, None, 10, Some(1), TurnStarted(7))
  const OTHER: Entry := Entry(2, None, 20, Some(2), TurnStarted(8))
  const MESSAGE: Entry := Entry(3, Some(2), 30, Some(3), UserMessage(false))

  function OldCard(): TurnCard { UpdateTurnCard(InitialTurnCard(FIRST), FIRST) }

  /** A snapshot and a page of one branch, a switch to another, and a live entry there. */
  function MixedRun(): seq<LiveStep> {
    [FromServer(SnapshotArrives(Snapshot(0, Some(1), Some(1), Some(1), Some(1), 1, true, None)))] +
    [FromServer(PageArrives(TurnsPage(0, Some(1), 1, 1, None, None, false, [OldCard()]), Replace))] +
    [FromServer(SwitchArrives(SwitchResult(0, Some(2), Some(2), Some(2), Some(2), None, Some([2]), Some([OTHER]))))] +
    [EventArrives(AppendEvent(0, 9, Some(MESSAGE), Some(3), Some(3), Some(3), Some(3)))]
  }

  ghost predicate At(cache: Cache, ids: seq<Id>, revision: int, leaf: Id) {
    && cache.sessionId == Some(0) && cache.snapshot.Some? && cache.activeBranchEntryIds == ids
    && cache.snapshot.value.transcriptRevision == Some(revision) && cache.snapshot.value.activeLeafId == Some(leaf)
  }

  lemma MixedSnapshot()
    ensures var cache := ApplyLive(EmptyCache(Some(0)), MixedRun()[0]);
            At(cache, [1], 1, 1) && !cache.transcriptTurnsLoaded && cache.turnTranscriptRevision.None?
  {
    hide SelectedEntries, OldCard;
  }

  lemma MixedPage(cache: Cache)
    requires At(cache, [1], 1, 1) && cache.turnTranscriptRevision.None?
    ensures var next := ApplyLive(cache, MixedRun()[1]);
            At(next, [1], 1, 1) && next.transcriptTurnsLoaded && next.cards == LoadedCards()
  {
    var page := TurnsPage(0, Some(1), 1, 1, None, None, false, [OldCard()]);
    PageFields(cache, page, Replace);
    OldCardFacts();
    OnePageCard(cache.entriesById);
    hide SelectedEntries, OldCard, KeptDetails, IncomingCards;
    assert CardIds(page.cards) == [1];
  }

  lemma OldCardFacts()
    ensures var card := OldCard();
            && card.id == 1 && StableId(card) == 1 && card.startEntryId == Some(1) && card.status == Open
            && card.userMessages == [] && card.assistantMessage.None? && card.boundaryEntryId.None?
  {
  }

  lemma OnePageCard(byId: map<Id, Entry>)
    ensures IncomingCards(byId, [OldCard()]).cardsById == map[1 := OldCard()]
  {
    OldCardFacts();
    var cards := [OldCard()];
    assert cards[..0] == [];
    assert Hydrated(OldCard(), MergeEntryBodies(byId, CardEntries(OldCard()))) == OldCard();
    hide OldCard;
    assert IncomingCards(byId, cards[..0]) == Incoming(byId, map[]);
  }

  lemma MixedSwitch(cache: Cache)
    requires At(cache, [1], 1, 1)
    ensures var next := ApplyLive(cache, MixedRun()[2]);
            At(next, [2], 2, 2) && next.transcriptTurnsLoaded == cache.transcriptTurnsLoaded && next.cards == cache.cards
  {
    hide SelectedEntries, MergeEntryBodies, OldCard;
  }

  lemma MixedEvent(cache: Cache)
    requires At(cache, [2], 2, 2) && cache.transcriptTurnsLoaded && cache.cards == LoadedCards()
    ensures var next := ApplyLive(cache, MixedRun()[3]);
            && At(next, [2, 3], 3, 3) && next.transcriptTurnsLoaded && next.turnTranscriptRevision == Some(3)
            && next.turnActiveLeafId == Some(3) && next.cards == AppendTurnCard(cache.cards, MESSAGE)
  {
    var event := AppendEvent(0, 9, Some(MESSAGE), Some(3), Some(3), Some(3), Some(3));
    EventFields(cache, event);
    TurnDetails.AfterFields(cache, event);
    assert [2] + [3] == [2, 3];
    hide SelectedEntries, OldCard, AppendTurnCard, DetailsAfter;
  }

  function LoadedCards(): Cards { Cards(map[1 := OldCard()], [1]) }

  lemma LoadedFiled()
    ensures Filed(LoadedCards(), {1}) && TurnDetails.Updates(LoadedCards(), {1}, MESSAGE.item)
    ensures LastCard(LoadedCards(), {1}) == OldCard()
  {
    OldCardFacts();
    assert LoadedCards().order[0] == 1 && 1 in LoadedCards().order;
    hide OldCard, StableId;
  }

  lemma MessageTaken()
    ensures var card := UpdateTurnCard(OldCard(), MESSAGE);
            StableId(card) == 1 && card.startEntryId == Some(1) && card.userMessages == [MESSAGE]
  {
    OldCardFacts();
    AppendUnseen([], MESSAGE);
    hide OldCard, AppendUniqueEntry;
  }

  lemma MixedCards()
    ensures var cards := AppendTurnCard(LoadedCards(), MESSAGE);
            cards.order == [1] && 1 in cards.byId && cards.byId[1].startEntryId == Some(1) && cards.byId[1].userMessages == [MESSAGE]
    ensures Filed(LoadedCards(), {1}) && TurnDetails.Updates(LoadedCards(), {1}, MESSAGE.item)
  {
    LoadedFiled();
    MessageTaken();
    hide OldCard, UpdateTurnCard, StableId, Filed, TurnDetails.Updates;
    TurnDetails.UpdatedCards(LoadedCards(), {1}, MESSAGE);
    hide AppendTurnCard;
  }

  /** The daemon's turns of the branch switched to start with its own first entry. */
  lemma OtherTurns()
    ensures var all := CardsOf([OTHER, MESSAGE]); |all| == 1 && all[0].startEntryId == Some(2)
  {
    var entries := [OTHER, MESSAGE];
    var first := entries[..1];
    assert first == [OTHER] && first[..0] == [];
    assert Scan(first) == Running;
    assert Scan(entries) == Running;
    assert FoldViews(first) == Views([], Some(EmptyTurn(Some(8), Some(OTHER)).(entries := [OTHER])));
    var turn := ExtendTurn(EmptyTurn(Some(8), Some(OTHER)).(entries := [OTHER]), MESSAGE);
    assert FoldViews(entries) == Views([], Some(turn));
    assert TurnViews(entries) == [turn];
    hide CardsOf, Scan, FoldViews, TurnViews;
    DaemonShowsViews(entries);
  }

  /** A run from the empty cache that ends in a usable cache whose branch is one thing and whose
      turns are another: after the switch the live message is folded into the old branch's turn. */
  lemma UsableCacheMixesBranches()
    ensures var end := RunLive(EmptyCache(Some(0)), MixedRun());
            && Usable(end, Some(0)) && end.activeBranchEntryIds == [2, 3]
            && end.cards.order == [1] && 1 in end.cards.byId
            && end.cards.byId[1].startEntryId == Some(1) && end.cards.byId[1].userMessages == [MESSAGE]
            && forall start: nat :: !ShowsFrom(end.cards, CardsOf([OTHER, MESSAGE]), start)
  {
    var empty := EmptyCache(Some(0));
    var run := MixedRun();
    hide ApplyLive, OldCard, CardsOf;
    RunLiveFour(empty, run[0], run[1], run[2], run[3]);
    MixedSnapshot();
    MixedPage(ApplyLive(empty, run[0]));
    MixedSwitch(ApplyLive(ApplyLive(empty, run[0]), run[1]));
    MixedEvent(ApplyLive(ApplyLive(ApplyLive(empty, run[0]), run[1]), run[2]));
    MixedCards();
    OtherTurns();
    var loaded := LoadedCards();
    var all := CardsOf([OTHER, MESSAGE]);
    OldCardFacts();
    forall start: nat
      ensures !ShowsFrom(AppendTurnCard(loaded, MESSAGE), all, start)
    {
      MixedIsNoEnd(loaded, all, start);
    }
  }

  lemma MixedIsNoEnd(loaded: Cards, all: seq<TurnCard>, start: nat)
    requires loaded == LoadedCards() && |all| == 1 && all[0].startEntryId == Some(2)
    ensures !ShowsFrom(AppendTurnCard(loaded, MESSAGE), all, start)
  {
    MixedCards();
    OldCardFacts();
    hide OldCard, AppendTurnCard;
    if start < |all| {
      OutOfStepMixesBranches(loaded, {1}, MESSAGE, all, start);
    } else if start == |all| {
      assert CardIds(all)[start..] == [];
    }
  }

  lemma RunLiveFour(cache: Cache, a: LiveStep, b: LiveStep, c: LiveStep, d: LiveStep)
    ensures RunLive(cache, [a] + [b] + [c] + [d]) == ApplyLive(ApplyLive(ApplyLive(ApplyLive(cache, a), b), c), d)
  {
    hide ApplyLive;
    RunLiveSnoc(cache, [], a);
    RunLiveSnoc(cache, [a], b);
    RunLiveSnoc(cache, [a] + [b], c);
    RunLiveSnoc(cache, [a] + [b] + [c], d);
    assert [] + [a] == [a];
  }

  lemma RunLiveSnoc(cache: Cache, steps: seq<LiveStep>, step: LiveStep)
    ensures RunLive(cache, steps + [step]) == ApplyLive(RunLive(cache, steps), step)
  {
    hide ApplyLive;
    assert (steps + [step])[..|steps|] == steps;
  }
}
