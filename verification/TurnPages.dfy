/** Pages of turn cards: a page either replaces the loaded turns or is prepended
    to them. The daemon serves contiguous blocks of the turns it would list for
    one transcript revision and active leaf. */
module TurnPages {
  import opened CodeUnits
  import opened Collections
  import opened Transcript
  import opened TurnCards
  import opened SelectedSessionCache

  datatype TurnsPage = TurnsPage(
    sessionId: SessionId,
    activeLeafId: Option<Id>,
    sessionRevision: int,
    transcriptRevision: int,
    beforeEntryId: Option<Id>,
    nextBeforeEntryId: Option<Id>,
    hasMoreBefore: bool,
    cards: seq<TurnCard>)

  datatype Mode = Replace | Prepend

  // ---------- Admission ----------

  predicate CanPrepend(cache: Cache, page: TurnsPage) {
    && cache.turnTranscriptRevision == Some(page.transcriptRevision)
    && cache.turnActiveLeafId == page.activeLeafId
    && cache.turnBeforeEntryId == page.beforeEntryId
  }

  function SnapshotRevision(cache: Cache): Option<int> {
    if cache.snapshot.Some? then cache.snapshot.value.transcriptRevision else None
  }

  /** `isStaleTranscriptTurnsResult` */
  predicate IsStale(cache: Cache, page: TurnsPage) {
    var known := Max(OrElse(cache.turnTranscriptRevision, -1), OrElse(SnapshotRevision(cache), -1));
    var snapshotLeaf := if cache.snapshot.Some? then cache.snapshot.value.activeLeafId else None;
    var knownLeaf := Or(snapshotLeaf, cache.turnActiveLeafId);
    || (known >= 0 && page.transcriptRevision < known)
    || (page.transcriptRevision == known && knownLeaf != page.activeLeafId)
  }

  predicate Admits(cache: Cache, page: TurnsPage, mode: Mode) {
    && cache.sessionId == Some(page.sessionId)
    && (mode == Prepend ==> CanPrepend(cache, page))
    && (mode == Replace ==> !IsStale(cache, page))
  }

  // ---------- Contents of a page ----------

  function CardEntries(card: TurnCard): seq<Entry> {
    card.userMessages + if card.assistantMessage.Some? then [card.assistantMessage.value] else []
  }

  function CachedBody(byId: map<Id, Entry>, entry: Entry): Entry {
    if entry.id in byId then byId[entry.id] else entry
  }

  /** The card, showing the cached bodies of its messages. */
  function Hydrated(card: TurnCard, byId: map<Id, Entry>): TurnCard {
    card.(
      userMessages := seq(|card.userMessages|,
        i requires 0 <= i < |card.userMessages| => CachedBody(byId, card.userMessages[i])),
      assistantMessage :=
        if card.assistantMessage.Some? then Some(CachedBody(byId, card.assistantMessage.value)) else None)
  }

  datatype Incoming = Incoming(entriesById: map<Id, Entry>, cardsById: map<Id, TurnCard>)

  function IncomingStep(state: Incoming, card: TurnCard): Incoming {
    var entriesById := MergeEntryBodies(state.entriesById, CardEntries(card));
    Incoming(entriesById, state.cardsById[card.id := Hydrated(card, entriesById)])
  }

  function IncomingCards(entriesById: map<Id, Entry>, cards: seq<TurnCard>): Incoming {
    if cards == [] then Incoming(entriesById, map[])
    else IncomingStep(IncomingCards(entriesById, cards[..|cards| - 1]), cards[|cards| - 1])
  }

  function CardIds(cards: seq<TurnCard>): seq<Id> {
    seq(|cards|, i requires 0 <= i < |cards| => cards[i].id)
  }

  function NotCached(ids: seq<Id>, byId: map<Id, TurnCard>): seq<Id> {
    if ids == [] then []
    else if ids[0] in byId then NotCached(ids[1..], byId)
    else [ids[0]] + NotCached(ids[1..], byId)
  }

  /** First occurrences, in order. */
  function Unique(values: seq<Id>): (r: seq<Id>)
    ensures Distinct(r)
    ensures forall v :: v in values <==> v in r
  {
    if values == [] then []
    else
      var last := values[|values| - 1];
      var earlier := Unique(values[..|values| - 1]);
      assert values == values[..|values| - 1] + [last];
      if last in earlier then earlier else earlier + [last]
  }

  /** `uniqueStringArray` */
  method UniqueLoop(values: seq<Id>) returns (result: seq<Id>)
    ensures result == Unique(values)
  {
    result := [];
    var seen: set<Id> := {};
    for i := 0 to |values|
      invariant result == Unique(values[..i])
      invariant forall v :: v in seen <==> v in result
    {
      assert values[..i + 1][..i] == values[..i];
      if values[i] in seen { continue; }
      seen := seen + {values[i]};
      result := result + [values[i]];
    }
    assert values[..|values|] == values;
  }

  /** The detail loaded for a card, under its id or under its start entry. */
  function LoadedDetail(details: map<Id, seq<Id>>, card: TurnCard): Option<seq<Id>> {
    if card.id in details then Some(details[card.id])
    else if card.startEntryId.Some? && card.startEntryId.value in details then Some(details[card.startEntryId.value])
    else None
  }

  function KeepDetail(kept: map<Id, seq<Id>>, details: map<Id, seq<Id>>, byId: map<Id, TurnCard>, id: Id): map<Id, seq<Id>> {
    if id !in byId then kept
    else
      var detail := LoadedDetail(details, byId[id]);
      if detail.Some? && Last(detail.value) == Some(byId[id].activeLeafId) then kept[byId[id].id := detail.value] else kept
  }

  function KeptDetails(details: map<Id, seq<Id>>, byId: map<Id, TurnCard>, order: seq<Id>): map<Id, seq<Id>> {
    if order == [] then map[]
    else KeepDetail(KeptDetails(details, byId, order[..|order| - 1]), details, byId, order[|order| - 1])
  }

  // ---------- Applying a page ----------

  function OrderAfter(cache: Cache, page: TurnsPage, mode: Mode): seq<Id> {
    if mode == Prepend then Unique(NotCached(CardIds(page.cards), cache.cards.byId) + cache.cards.order)
    else CardIds(page.cards)
  }

  function CardsAfter(cache: Cache, page: TurnsPage, mode: Mode): Cards {
    var incoming := IncomingCards(cache.entriesById, page.cards).cardsById;
    Cards(if mode == Prepend then cache.cards.byId + incoming else incoming, OrderAfter(cache, page, mode))
  }

  function PageBranch(page: TurnsPage): seq<Id> {
    if page.activeLeafId.Some? then [page.activeLeafId.value] else []
  }

  function PageSnapshot(snapshot: Option<Snapshot>, page: TurnsPage, entries: seq<Entry>): Option<Snapshot> {
    if snapshot.None? then None
    else
      Some(snapshot.value.(
        activeLeafId := page.activeLeafId,
        hasTranscriptEntries := |page.cards| > 0,
        sessionRevision := Some(Max(OrElse(snapshot.value.sessionRevision, 0), page.sessionRevision)),
        transcriptRevision := Some(Max(OrElse(snapshot.value.transcriptRevision, 0), page.transcriptRevision)),
        entries := Some(entries)))
  }

  function WithPage(cache: Cache, page: TurnsPage, entriesById: map<Id, Entry>, cards: Cards, details: map<Id, seq<Id>>): Cache {
    cache.(
      snapshot := PageSnapshot(cache.snapshot, page, SelectedEntries(PageBranch(page), entriesById)),
      activeBranchEntryIds := PageBranch(page),
      entriesById := entriesById,
      cards := cards,
      turnDetailsById := details,
      transcriptTurnsLoaded := true,
      turnPageHydrationRevision := cache.turnPageHydrationRevision + 1,
      turnTranscriptRevision := Some(page.transcriptRevision),
      turnActiveLeafId := page.activeLeafId,
      turnHasMoreBefore := page.hasMoreBefore,
      turnBeforeEntryId := page.nextBeforeEntryId)
  }

  /** `samePrependProjection`: nothing but the hydration counter moved. */
  predicate SamePrependProjection(left: Cache, right: Cache) {
    && left.entriesById == right.entriesById
    && left.activeBranchEntryIds == right.activeBranchEntryIds
    && left.cards.order == right.cards.order
    && left.snapshot == right.snapshot
    && left.cards.byId == right.cards.byId
    && left.turnDetailsById == right.turnDetailsById
    && left.transcriptTurnsLoaded == right.transcriptTurnsLoaded
    && left.turnTranscriptRevision == right.turnTranscriptRevision
    && left.turnActiveLeafId == right.turnActiveLeafId
    && left.turnHasMoreBefore == right.turnHasMoreBefore
    && left.turnBeforeEntryId == right.turnBeforeEntryId
  }

  function PageApplied(cache: Cache, page: TurnsPage, mode: Mode): Cache {
    var cards := CardsAfter(cache, page, mode);
    WithPage(cache, page, IncomingCards(cache.entriesById, page.cards).entriesById, cards,
             KeptDetails(cache.turnDetailsById, cards.byId, cards.order))
  }

  /** `applyTranscriptTurns` */
  function ApplyTranscriptTurns(cache: Cache, page: TurnsPage, mode: Mode): Cache {
    if !Admits(cache, page, mode) then cache
    else
      var next := PageApplied(cache, page, mode);
      if mode == Prepend && SamePrependProjection(cache, next) then cache else next
  }

  /** The first loop of `applyTranscriptTurns`: bodies and cards of the page. */
  method IncomingLoop(current: map<Id, Entry>, cards: seq<TurnCard>)
    returns (entriesById: map<Id, Entry>, incoming: map<Id, TurnCard>)
    ensures Incoming(entriesById, incoming) == IncomingCards(current, cards)
  {
    entriesById, incoming := current, map[];
    for i := 0 to |cards|
      invariant Incoming(entriesById, incoming) == IncomingCards(current, cards[..i])
    {
      assert cards[..i + 1][..i] == cards[..i];
      entriesById := MergeEntryBodiesLoop(entriesById, CardEntries(cards[i]));
      incoming := incoming[cards[i].id := Hydrated(cards[i], entriesById)];
    }
    assert cards[..|cards|] == cards;
  }

  /** Its second loop: the details that still reach their card's leaf. */
  method KeptDetailsLoop(details: map<Id, seq<Id>>, byId: map<Id, TurnCard>, order: seq<Id>)
    returns (kept: map<Id, seq<Id>>)
    ensures kept == KeptDetails(details, byId, order)
  {
    kept := map[];
    for i := 0 to |order|
      invariant kept == KeptDetails(details, byId, order[..i])
    {
      assert order[..i + 1][..i] == order[..i];
      if order[i] !in byId { continue; }
      var card := byId[order[i]];
      var detail := LoadedDetail(details, card);
      if detail.Some? && Last(detail.value) == Some(card.activeLeafId) { kept := kept[card.id := detail.value]; }
    }
    assert order[..|order|] == order;
  }

  method ApplyTranscriptTurnsLoop(cache: Cache, page: TurnsPage, mode: Mode) returns (next: Cache)
    ensures next == ApplyTranscriptTurns(cache, page, mode)
  {
    if !Admits(cache, page, mode) { return cache; }
    var entriesById, byId := IncomingLoop(cache.entriesById, page.cards);
    var order := CardIds(page.cards);
    if mode == Prepend {
      order := UniqueLoop(NotCached(order, cache.cards.byId) + cache.cards.order);
      byId := cache.cards.byId + byId;
    }
    var details := KeptDetailsLoop(cache.turnDetailsById, byId, order);
    next := WithPage(cache, page, entriesById, Cards(byId, order), details);
    if mode == Prepend && SamePrependProjection(cache, next) { next := cache; }
  }

  datatype PrependStatus = Committed | Noop | StalePage

  /** `prependTranscriptTurns` */
  function PrependTranscriptTurns(cache: Cache, page: TurnsPage): (Cache, PrependStatus) {
    if !CanPrepend(cache, page) then (cache, StalePage)
    else
      var next := ApplyTranscriptTurns(cache, page, Prepend);
      (next, if next == cache then Noop else Committed)
  }

  // ---------- The daemon's pages ----------

  datatype TurnsKey = TurnsKey(sessionId: SessionId, revision: int, leaf: Option<Id>)

  /** The turns of one revision and leaf; a cursor entry stands before the card at its position. */
  datatype ServerTurns = ServerTurns(cards: seq<TurnCard>, position: map<Id, nat>)

  type Server = map<TurnsKey, ServerTurns>

  ghost predicate ValidTurns(turns: ServerTurns, rows: map<Id, Entry>) {
    && Distinct(CardIds(turns.cards))
    && (forall cursor | cursor in turns.position :: turns.position[cursor] <= |turns.cards|)
    && (forall i | 0 <= i < |turns.cards| :: AreRows(rows, CardEntries(turns.cards[i])))
  }

  ghost predicate ValidServer(server: Server, rows: map<Id, Entry>) {
    forall key | key in server :: ValidTurns(server[key], rows)
  }

  /** A cursor the daemon could have handed out for these turns. */
  predicate IsCursor(turns: ServerTurns, cursor: Option<Id>) { cursor.Some? ==> cursor.value in turns.position }

  function Position(turns: ServerTurns, cursor: Option<Id>): nat
    requires IsCursor(turns, cursor)
  {
    if cursor.None? then 0 else turns.position[cursor.value]
  }

  predicate IsBlock(turns: ServerTurns, page: TurnsPage, end: nat) {
    && IsCursor(turns, page.nextBeforeEntryId)
    && page.hasMoreBefore == page.nextBeforeEntryId.Some?
    && var start := Position(turns, page.nextBeforeEntryId);
       start <= end <= |turns.cards| && page.cards == turns.cards[start..end]
  }

  function PageKey(page: TurnsPage): TurnsKey { TurnsKey(page.sessionId, page.transcriptRevision, page.activeLeafId) }

  /** The page holds the cards that end where its request's cursor stands, or at the leaf
      without one. A cursor of some other branch or revision promises nothing. */
  predicate Honest(server: Server, page: TurnsPage) {
    && PageKey(page) in server
    && var turns := server[PageKey(page)];
       match page.beforeEntryId
       case None => IsBlock(turns, page, |turns.cards|)
       case Some(cursor) => cursor in turns.position ==> IsBlock(turns, page, turns.position[cursor])
  }

  // ---------- The loaded turns are a suffix of the daemon's ----------

  /** Whatever `byId` holds under the id of one of `cards` is that card. */
  ghost predicate SameCards(byId: map<Id, TurnCard>, cards: seq<TurnCard>) {
    forall i | 0 <= i < |cards| && cards[i].id in byId :: byId[cards[i].id] == cards[i]
  }

  /** Keyed exactly by the loaded cards, which are the daemon's from position `start` on. */
  ghost predicate ShowsFrom(cards: Cards, all: seq<TurnCard>, start: nat) {
    && start <= |all| && cards.order == CardIds(all)[start..]
    && cards.byId.Keys == Members(cards.order) && SameCards(cards.byId, all)
  }

  /** The position of the first loaded card. */
  function FirstLoaded(cache: Cache, turns: ServerTurns): int { |turns.cards| - |cache.cards.order| }

  function CacheKey(cache: Cache): TurnsKey
    requires cache.sessionId.Some? && cache.turnTranscriptRevision.Some?
  {
    TurnsKey(cache.sessionId.value, cache.turnTranscriptRevision.value, cache.turnActiveLeafId)
  }

  /** The loaded cards and the cursor for older ones, against the daemon's turns. */
  ghost predicate Window(cache: Cache, turns: ServerTurns) {
    && IsCursor(turns, cache.turnBeforeEntryId)
    && cache.turnHasMoreBefore == cache.turnBeforeEntryId.Some?
    && 0 <= FirstLoaded(cache, turns) <= Position(turns, cache.turnBeforeEntryId)
    && ShowsFrom(cache.cards, turns.cards, FirstLoaded(cache, turns))
  }

  ghost predicate Inv(cache: Cache, server: Server, rows: map<Id, Entry>) {
    && Rows(rows, cache.entriesById)
    && if cache.transcriptTurnsLoaded then
         && cache.sessionId.Some? && cache.turnTranscriptRevision.Some? && CacheKey(cache) in server
         && Window(cache, server[CacheKey(cache)])
       else cache.cards == NO_CARDS && cache.turnTranscriptRevision.None?
  }

  lemma HydratedRow(rows: map<Id, Entry>, byId: map<Id, Entry>, card: TurnCard)
    requires Rows(rows, byId) && AreRows(rows, CardEntries(card))
    ensures Hydrated(card, byId) == card
  {
    var entries := CardEntries(card);
    var n := |card.userMessages|;
    forall i | 0 <= i < n
      ensures CachedBody(byId, card.userMessages[i]) == card.userMessages[i]
    {
      assert entries[i] == card.userMessages[i];
    }
    if card.assistantMessage.Some? {
      assert entries[n] == card.assistantMessage.value;
    }
    assert Hydrated(card, byId).userMessages == card.userMessages;
  }

  /** The cards of a page are stored under their ids unaltered. */
  lemma {:induction false} IncomingRows(rows: map<Id, Entry>, byId: map<Id, Entry>, cards: seq<TurnCard>)
    requires Rows(rows, byId) && Distinct(CardIds(cards))
    requires forall i | 0 <= i < |cards| :: AreRows(rows, CardEntries(cards[i]))
    ensures Rows(rows, IncomingCards(byId, cards).entriesById)
    ensures IncomingCards(byId, cards).cardsById.Keys == Members(CardIds(cards))
    ensures SameCards(IncomingCards(byId, cards).cardsById, cards)
  {
    if cards != [] {
      var n := |cards| - 1;
      var init, card := cards[..n], cards[n];
      assert CardIds(init) == CardIds(cards)[..n];
      IncomingRows(rows, byId, init);
      var before := IncomingCards(byId, init);
      MergeRows(rows, before.entriesById, CardEntries(card));
      HydratedRow(rows, MergeEntryBodies(before.entriesById, CardEntries(card)), card);
      hide MergeEntryBodies, Hydrated, CardEntries, AreRows, Rows;
      AddCard(before.cardsById, cards);
    }
  }

  lemma AddCard(byId: map<Id, TurnCard>, cards: seq<TurnCard>)
    requires cards != [] && Distinct(CardIds(cards))
    requires byId.Keys == Members(CardIds(cards)[..|cards| - 1]) && SameCards(byId, cards[..|cards| - 1])
    ensures var last := cards[|cards| - 1];
            && byId[last.id := last].Keys == Members(CardIds(cards))
            && SameCards(byId[last.id := last], cards)
  {
    var n := |cards| - 1;
    var last, ids := cards[n], CardIds(cards);
    assert ids == ids[..n] + [ids[n]];
    MembersSnoc(ids[..n], ids[n]);
    forall i | 0 <= i < n
      ensures cards[i].id != last.id && cards[..n][i] == cards[i]
    {
      assert ids[i] != ids[n];
    }
  }

  lemma {:induction false} NotCachedPrefix(ids: seq<Id>, byId: map<Id, TurnCard>, k: nat)
    requires k <= |ids|
    requires forall i | 0 <= i < k :: ids[i] !in byId
    requires forall i | k <= i < |ids| :: ids[i] in byId
    ensures NotCached(ids, byId) == ids[..k]
  {
    if ids != [] {
      if k == 0 {
        NotCachedPrefix(ids[1..], byId, 0);
      } else {
        NotCachedPrefix(ids[1..], byId, k - 1);
        assert ids[..k] == [ids[0]] + ids[1..][..k - 1];
      }
    }
  }

  lemma {:induction false} UniqueDistinct(values: seq<Id>)
    requires Distinct(values)
    ensures Unique(values) == values
  {
    if values != [] {
      var n := |values| - 1;
      UniqueDistinct(values[..n]);
      assert values == values[..n] + [values[n]];
    }
  }

  /** Prepending the block `from..to` to the cards from `start` on, with no gap between them. */
  lemma PrependBlock(cards: Cards, all: seq<TurnCard>, start: nat, from: nat, to: nat, incoming: map<Id, TurnCard>)
    requires Distinct(CardIds(all)) && ShowsFrom(cards, all, start)
    requires from <= to <= |all| && start <= to
    requires incoming.Keys == Members(CardIds(all)[from..to]) && SameCards(incoming, all[from..to])
    ensures ShowsFrom(Cards(cards.byId + incoming, Unique(NotCached(CardIds(all)[from..to], cards.byId) + cards.order)),
                      all, if from < start then from else start)
  {
    var first := if from < start then from else start;
    PrependedIds(CardIds(all), cards.byId, start, from, to);
    SubrangeCards(incoming, all, from, to);
    SubrangeUnion(CardIds(all), start, from, to);
    hide Unique, NotCached, Members, Distinct;
  }

  lemma PrependedIds(ids: seq<Id>, byId: map<Id, TurnCard>, start: nat, from: nat, to: nat)
    requires Distinct(ids) && start <= to && from <= to <= |ids| && byId.Keys == Members(ids[start..])
    ensures Unique(NotCached(ids[from..to], byId) + ids[start..]) == ids[if from < start then from else start..]
  {
    var first := if from < start then from else start;
    NewIds(ids, byId, start, from, to);
    hide NotCached, Members, Unique;
    assert ids[first..start] + ids[start..] == ids[first..];
    UniqueDistinct(ids[first..]);
  }

  lemma NewIds(ids: seq<Id>, byId: map<Id, TurnCard>, start: nat, from: nat, to: nat)
    requires Distinct(ids) && start <= to && from <= to <= |ids| && byId.Keys == Members(ids[start..])
    ensures NotCached(ids[from..to], byId) == ids[if from < start then from else start..start]
  {
    var k := if from < start then start - from else 0;
    var block := ids[from..to];
    assert ids[start..] == ids[start..|ids|];
    InSubrange(ids, start, |ids|);
    hide NotCached, Members, Distinct;
    forall i | 0 <= i < |block|
      ensures block[i] in byId <==> k <= i
    {
      assert block[i] == ids[from + i];
    }
    NotCachedPrefix(block, byId, k);
    assert block[..k] == ids[if from < start then from else start..start];
  }

  /** With distinct ids, an id lies in a subrange exactly when its position does. */
  lemma InSubrange(ids: seq<Id>, from: nat, to: nat)
    requires Distinct(ids) && from <= to <= |ids|
    ensures forall i | 0 <= i < |ids| :: ids[i] in Members(ids[from..to]) <==> from <= i < to
  {
    var block := ids[from..to];
    forall i | 0 <= i < |ids|
      ensures ids[i] in Members(block) <==> from <= i < to
    {
      if ids[i] in Members(block) {
        var j :| 0 <= j < |block| && block[j] == ids[i];
        assert ids[from + j] == ids[i];
      }
      if from <= i < to {
        assert block[i - from] == ids[i];
      }
    }
  }

  lemma SubrangeCards(byId: map<Id, TurnCard>, all: seq<TurnCard>, from: nat, to: nat)
    requires Distinct(CardIds(all)) && from <= to <= |all|
    requires byId.Keys == Members(CardIds(all)[from..to]) && SameCards(byId, all[from..to])
    ensures SameCards(byId, all)
  {
    InSubrange(CardIds(all), from, to);
    forall i | 0 <= i < |all| && all[i].id in byId
      ensures byId[all[i].id] == all[i]
    {
      assert CardIds(all)[i] in Members(CardIds(all)[from..to]);
      assert all[from..to][i - from] == all[i];
    }
  }

  lemma SubrangeUnion(ids: seq<Id>, start: nat, from: nat, to: nat)
    requires start <= to && from <= to <= |ids|
    ensures Members(ids[start..]) + Members(ids[from..to]) == Members(ids[if from < start then from else start..])
  {
    var first := if from < start then from else start;
    var whole, tail, block := ids[first..], ids[start..], ids[from..to];
    forall x | x in Members(tail) + Members(block)
      ensures x in Members(whole)
    {
      if x in Members(tail) {
        var i :| 0 <= i < |tail| && tail[i] == x;
        assert whole[start + i - first] == x;
      } else {
        var i :| 0 <= i < |block| && block[i] == x;
        assert whole[from + i - first] == x;
      }
    }
    forall x | x in Members(whole)
      ensures x in Members(tail) + Members(block)
    {
      var i :| 0 <= i < |whole| && whole[i] == x;
      if start <= first + i {
        assert tail[first + i - start] == x;
      } else {
        assert block[first + i - from] == x;
      }
    }
  }

  // ---------- Every run ----------

  datatype Step =
    | SnapshotArrives(snapshot: Snapshot)
    | BodiesArrive(sessionId: SessionId, entries: seq<Entry>)
    | SyncArrives(sync: Sync)
    | SwitchArrives(result: SwitchResult)
    | PageArrives(page: TurnsPage, mode: Mode)

  function Apply(cache: Cache, step: Step): Cache {
    match step
    case SnapshotArrives(snapshot) => ApplySelectedSnapshot(cache, snapshot)
    case BodiesArrive(sessionId, entries) => ApplyEntryBodies(cache, sessionId, entries)
    case SyncArrives(sync) => ApplySync(cache, sync).0
    case SwitchArrives(result) => ApplySwitch(cache, result)
    case PageArrives(page, mode) => ApplyTranscriptTurns(cache, page, mode)
  }

  /** Bodies are rows; pages that replace are requested without a cursor. */
  ghost predicate Allowed(server: Server, rows: map<Id, Entry>, step: Step) {
    match step
    case SnapshotArrives(snapshot) => AreRows(rows, OrElse(snapshot.entries, []))
    case BodiesArrive(_, entries) => AreRows(rows, entries)
    case SyncArrives(sync) => AreRows(rows, sync.entries)
    case SwitchArrives(result) => AreRows(rows, OrElse(result.entries, []))
    case PageArrives(page, mode) => Honest(server, page) && (mode == Replace ==> page.beforeEntryId.None?)
  }

  function Run(cache: Cache, steps: seq<Step>): Cache {
    if steps == [] then cache else Apply(Run(cache, steps[..|steps| - 1]), steps[|steps| - 1])
  }

  predicate SameTurnFields(before: Cache, after: Cache) {
    && after.sessionId == before.sessionId && after.cards == before.cards
    && after.transcriptTurnsLoaded == before.transcriptTurnsLoaded
    && after.turnTranscriptRevision == before.turnTranscriptRevision
    && after.turnActiveLeafId == before.turnActiveLeafId
    && after.turnHasMoreBefore == before.turnHasMoreBefore
    && after.turnBeforeEntryId == before.turnBeforeEntryId
  }

  /** Forgetting the session forgets its turns. */
  predicate NoTurns(cache: Cache) {
    && !cache.transcriptTurnsLoaded && cache.cards == NO_CARDS && cache.turnTranscriptRevision.None?
    && cache.turnBeforeEntryId.None?
  }

  lemma OtherStepsSkipTurns(cache: Cache, step: Step)
    requires !step.PageArrives?
    ensures SameTurnFields(cache, Apply(cache, step)) || NoTurns(Apply(cache, step))
  {
    hide MergeEntryBodies, SelectedEntries, AppendBranch, EntryIds, BranchIdsForLeaf;
  }

  lemma OtherStepsKeepRows(cache: Cache, step: Step, server: Server, rows: map<Id, Entry>)
    requires Rows(rows, cache.entriesById) && Allowed(server, rows, step) && !step.PageArrives?
    ensures Rows(rows, Apply(cache, step).entriesById)
  {
    var entries :=
      match step
      case SnapshotArrives(snapshot) => OrElse(snapshot.entries, [])
      case BodiesArrive(_, entries) => entries
      case SyncArrives(sync) => sync.entries
      case SwitchArrives(result) => OrElse(result.entries, []);
    MergeRows(rows, cache.entriesById, entries);
    MergeRows(rows, map[], entries);
    assert Rows(rows, map[]);
    hide MergeEntryBodies, SelectedEntries, AppendBranch, EntryIds, BranchIdsForLeaf, Rows, AreRows, IdsOf;
  }

  lemma OtherStepsKeep(cache: Cache, step: Step, server: Server, rows: map<Id, Entry>)
    requires Inv(cache, server, rows) && Allowed(server, rows, step) && !step.PageArrives?
    ensures Inv(Apply(cache, step), server, rows)
  {
    OtherStepsSkipTurns(cache, step);
    OtherStepsKeepRows(cache, step, server, rows);
    hide Apply, Rows, ShowsFrom;
  }

  lemma BlockRows(turns: ServerTurns, rows: map<Id, Entry>, page: TurnsPage, end: nat, byId: map<Id, Entry>)
    requires ValidTurns(turns, rows) && IsBlock(turns, page, end) && Rows(rows, byId)
    ensures var start := Position(turns, page.nextBeforeEntryId);
            && CardIds(page.cards) == CardIds(turns.cards)[start..end]
            && IncomingCards(byId, page.cards).cardsById.Keys == Members(CardIds(page.cards))
            && SameCards(IncomingCards(byId, page.cards).cardsById, page.cards)
            && Rows(rows, IncomingCards(byId, page.cards).entriesById)
  {
    var start := Position(turns, page.nextBeforeEntryId);
    assert CardIds(page.cards) == CardIds(turns.cards)[start..end];
    assert Distinct(CardIds(page.cards));
    IncomingRows(rows, byId, page.cards);
  }

  lemma PageFields(cache: Cache, page: TurnsPage, mode: Mode)
    ensures var next := PageApplied(cache, page, mode);
            && next.cards == CardsAfter(cache, page, mode)
            && next.entriesById == IncomingCards(cache.entriesById, page.cards).entriesById
            && next.sessionId == cache.sessionId && next.transcriptTurnsLoaded
            && next.turnTranscriptRevision == Some(page.transcriptRevision)
            && next.turnActiveLeafId == page.activeLeafId
            && next.turnHasMoreBefore == page.hasMoreBefore
            && next.turnBeforeEntryId == page.nextBeforeEntryId
  {
    hide CardsAfter, IncomingCards, KeptDetails, SelectedEntries;
  }

  lemma ReplaceKeeps(cache: Cache, page: TurnsPage, server: Server, rows: map<Id, Entry>)
    requires ValidServer(server, rows) && Rows(rows, cache.entriesById) && Honest(server, page) && page.beforeEntryId.None?
    requires Admits(cache, page, Replace)
    ensures Inv(PageApplied(cache, page, Replace), server, rows)
  {
    var turns := server[PageKey(page)];
    var next := PageApplied(cache, page, Replace);
    var all := turns.cards;
    var start := Position(turns, page.nextBeforeEntryId);
    BlockRows(turns, rows, page, |all|, cache.entriesById);
    SubrangeCards(next.cards.byId, all, start, |all|);
    hide IncomingCards, KeptDetails, SelectedEntries, Members, SameCards;
    assert ShowsFrom(next.cards, all, start);
    assert FirstLoaded(next, turns) == start;
  }

  lemma WindowFrom(cache: Cache, turns: ServerTurns, first: nat)
    requires ShowsFrom(cache.cards, turns.cards, first) && IsCursor(turns, cache.turnBeforeEntryId)
    requires first <= Position(turns, cache.turnBeforeEntryId)
    requires cache.turnHasMoreBefore == cache.turnBeforeEntryId.Some?
    ensures Window(cache, turns)
  {
    hide SameCards, Members;
    assert FirstLoaded(cache, turns) == first;
  }

  lemma PrependWindow(cache: Cache, next: Cache, turns: ServerTurns, page: TurnsPage, to: nat, incoming: map<Id, TurnCard>)
    requires Distinct(CardIds(turns.cards)) && Window(cache, turns)
    requires IsBlock(turns, page, to) && FirstLoaded(cache, turns) <= to
    requires var from := Position(turns, page.nextBeforeEntryId);
             && incoming.Keys == Members(CardIds(turns.cards)[from..to]) && SameCards(incoming, turns.cards[from..to])
             && next.cards == Cards(cache.cards.byId + incoming,
                                    Unique(NotCached(CardIds(turns.cards)[from..to], cache.cards.byId) + cache.cards.order))
    requires next.turnBeforeEntryId == page.nextBeforeEntryId && next.turnHasMoreBefore == page.hasMoreBefore
    ensures Window(next, turns)
  {
    var start := FirstLoaded(cache, turns);
    var from := Position(turns, page.nextBeforeEntryId);
    hide Unique, NotCached, Distinct, Members, SameCards, ShowsFrom, CardIds;
    PrependBlock(cache.cards, turns.cards, start, from, to, incoming);
    WindowFrom(next, turns, if from < start then from else start);
  }

  lemma PrependKeeps(cache: Cache, page: TurnsPage, server: Server, rows: map<Id, Entry>)
    requires ValidServer(server, rows) && Inv(cache, server, rows) && Honest(server, page)
    requires Admits(cache, page, Prepend)
    ensures Inv(PageApplied(cache, page, Prepend), server, rows)
  {
    var turns := server[PageKey(page)];
    var next := PageApplied(cache, page, Prepend);
    var to := if page.beforeEntryId.None? then |turns.cards| else Position(turns, page.beforeEntryId);
    assert cache.transcriptTurnsLoaded && CacheKey(cache) == PageKey(page);
    assert IsBlock(turns, page, to) && FirstLoaded(cache, turns) <= to;
    BlockRows(turns, rows, page, to, cache.entriesById);
    PageFields(cache, page, Prepend);
    hide PageApplied, IncomingCards, Rows, Members, SameCards, Unique, NotCached, Distinct, ShowsFrom;
    PrependWindow(cache, next, turns, page, to, IncomingCards(cache.entriesById, page.cards).cardsById);
  }

  lemma {:induction false} RunInv(cache: Cache, steps: seq<Step>, server: Server, rows: map<Id, Entry>)
    requires ValidServer(server, rows) && Inv(cache, server, rows)
    requires forall i | 0 <= i < |steps| :: Allowed(server, rows, steps[i])
    ensures Inv(Run(cache, steps), server, rows)
  {
    if steps != [] {
      var n := |steps| - 1;
      RunInv(cache, steps[..n], server, rows);
      var before := Run(cache, steps[..n]);
      var step := steps[n];
      if !step.PageArrives? {
        OtherStepsKeep(before, step, server, rows);
      } else if Admits(before, step.page, step.mode) {
        if step.mode == Replace {
          ReplaceKeeps(before, step.page, server, rows);
        } else {
          PrependKeeps(before, step.page, server, rows);
        }
      }
    }
  }

  /** Whatever the arrival order of pages, the loaded turns are without duplicates, keyed
      exactly by their cards, and the last turns of the daemon's list for the cached
      revision and leaf; once no older page is announced they are the whole list. A page that
      is not admitted there changes nothing. */
  lemma LoadedTurnsAreASuffix(sessionId: Option<SessionId>, steps: seq<Step>, server: Server, rows: map<Id, Entry>)
    requires ValidServer(server, rows)
    requires forall i | 0 <= i < |steps| :: Allowed(server, rows, steps[i])
    ensures var cache := Run(EmptyCache(sessionId), steps);
            && Distinct(cache.cards.order)
            && cache.cards.byId.Keys == Members(cache.cards.order)
            && (!cache.transcriptTurnsLoaded ==> cache.cards.order == [])
            && (cache.transcriptTurnsLoaded ==>
                  && cache.sessionId.Some? && cache.turnTranscriptRevision.Some? && CacheKey(cache) in server
                  && var all := server[CacheKey(cache)].cards;
                     var missing := |all| - |cache.cards.order|;
                     && 0 <= missing && cache.cards.order == CardIds(all)[missing..]
                     && SameCards(cache.cards.byId, all)
                     && (!cache.turnHasMoreBefore ==> missing == 0))
            && (forall page, mode | !Admits(cache, page, mode) :: ApplyTranscriptTurns(cache, page, mode) == cache)
  {
    RunInv(EmptyCache(sessionId), steps, server, rows);
    var cache := Run(EmptyCache(sessionId), steps);
    hide Run, Rows, SameCards, Admits, PageApplied;
    if cache.transcriptTurnsLoaded {
      var all := server[CacheKey(cache)].cards;
      assert ValidTurns(server[CacheKey(cache)], rows);
      DistinctTail(CardIds(all), |all| - |cache.cards.order|);
    }
  }

  lemma DistinctTail(ids: seq<Id>, k: nat)
    requires Distinct(ids) && k <= |ids|
    ensures Distinct(ids[k..])
  {
  }

  /** In any run, the daemon's page for the cached cursor, revision and leaf is taken: the loaded
      turns then reach back to where it begins, its cursor is the next one, it is reported as
      committed if it brought a turn, and the last page makes them the whole list. */
  lemma OlderPageIsTaken(sessionId: Option<SessionId>, steps: seq<Step>, server: Server, rows: map<Id, Entry>, page: TurnsPage)
    requires ValidServer(server, rows) && forall i | 0 <= i < |steps| :: Allowed(server, rows, steps[i])
    requires var cache := Run(EmptyCache(sessionId), steps);
             && cache.transcriptTurnsLoaded && cache.sessionId == Some(page.sessionId)
             && cache.turnTranscriptRevision == Some(page.transcriptRevision) && cache.turnActiveLeafId == page.activeLeafId
             && cache.turnBeforeEntryId == page.beforeEntryId
    requires Honest(server, page)
    ensures var cache := Run(EmptyCache(sessionId), steps);
            var (next, status) := PrependTranscriptTurns(cache, page);
            var turns := server[PageKey(page)];
            && IsCursor(turns, page.nextBeforeEntryId)
            && var start := Position(turns, page.nextBeforeEntryId);
               var n := |turns.cards|;
               && start <= n && |cache.cards.order| <= n
               && next.cards.order == CardIds(turns.cards)[if start < n - |cache.cards.order| then start else n - |cache.cards.order|..]
               && SameCards(next.cards.byId, turns.cards)
               && next.turnBeforeEntryId == page.nextBeforeEntryId && next.turnHasMoreBefore == page.hasMoreBefore
               && (start < n - |cache.cards.order| ==> status == Committed)
               && (!page.hasMoreBefore ==> next.cards.order == CardIds(turns.cards))
               && status != StalePage
  {
    var cache := Run(EmptyCache(sessionId), steps);
    RunInv(EmptyCache(sessionId), steps, server, rows);
    var turns := server[PageKey(page)];
    var to := if page.beforeEntryId.None? then |turns.cards| else Position(turns, page.beforeEntryId);
    assert CacheKey(cache) == PageKey(page) && Window(cache, turns);
    assert IsBlock(turns, page, to) && FirstLoaded(cache, turns) <= to;
    BlockRows(turns, rows, page, to, cache.entriesById);
    PageFields(cache, page, Prepend);
    hide Run, PageApplied, IncomingCards, Rows, Unique, NotCached, ShowsFrom, KeptDetails;
    var incoming := IncomingCards(cache.entriesById, page.cards).cardsById;
    PrependBlock(cache.cards, turns.cards, FirstLoaded(cache, turns), Position(turns, page.nextBeforeEntryId), to, incoming);
    hide Members, SameCards;
    TakenOrUnchanged(cache, page);
    ShownFrom(CardsAfter(cache, page, Prepend), turns.cards,
              if Position(turns, page.nextBeforeEntryId) < FirstLoaded(cache, turns) then Position(turns, page.nextBeforeEntryId)
              else FirstLoaded(cache, turns));
  }

  lemma ShownFrom(cards: Cards, all: seq<TurnCard>, start: nat)
    requires ShowsFrom(cards, all, start)
    ensures start <= |all| && cards.order == CardIds(all)[start..] && SameCards(cards.byId, all) && |cards.order| == |all| - start
    ensures start == 0 ==> cards.order == CardIds(all)
  {
  }

  lemma TakenOrUnchanged(cache: Cache, page: TurnsPage)
    requires cache.sessionId == Some(page.sessionId) && cache.turnTranscriptRevision == Some(page.transcriptRevision)
    requires cache.turnActiveLeafId == page.activeLeafId && cache.turnBeforeEntryId == page.beforeEntryId
    ensures var (next, status) := PrependTranscriptTurns(cache, page);
            && next.cards == CardsAfter(cache, page, Prepend)
            && next.turnBeforeEntryId == page.nextBeforeEntryId && next.turnHasMoreBefore == page.hasMoreBefore
            && (next.cards != cache.cards ==> status == Committed) && status != StalePage
  {
    PageFields(cache, page, Prepend);
    hide PageApplied, CardsAfter;
  }

  /** A page of the session replaces the loaded turns exactly when no known revision is newer and,
      if its revision is known already, its leaf is the known one; the turns are then its cards.
      Otherwise it changes nothing. */
  lemma ReplaceTakenIff(cache: Cache, page: TurnsPage)
    requires cache.sessionId == Some(page.sessionId) && page.transcriptRevision >= 0
    ensures var next := ApplyTranscriptTurns(cache, page, Replace);
            var revision := page.transcriptRevision;
            var known := {cache.turnTranscriptRevision, SnapshotRevision(cache)};
            var leaf := if cache.snapshot.Some? && cache.snapshot.value.activeLeafId.Some? then cache.snapshot.value.activeLeafId
                        else cache.turnActiveLeafId;
            var taken := (forall r | Some(r) in known :: r <= revision) && (Some(revision) in known ==> page.activeLeafId == leaf);
            && (!taken ==> next == cache)
            && (taken ==>
                  && next.transcriptTurnsLoaded && next.cards.order == CardIds(page.cards)
                  && next.turnTranscriptRevision == Some(revision) && next.turnActiveLeafId == page.activeLeafId
                  && next.turnHasMoreBefore == page.hasMoreBefore && next.turnBeforeEntryId == page.nextBeforeEntryId
                  && next.turnPageHydrationRevision == cache.turnPageHydrationRevision + 1)
  {
    PageFields(cache, page, Replace);
    var known := {cache.turnTranscriptRevision, SnapshotRevision(cache)};
    var revision := page.transcriptRevision;
    assert cache.turnTranscriptRevision.Some? ==> Some(cache.turnTranscriptRevision.value) in known;
    assert SnapshotRevision(cache).Some? ==> Some(SnapshotRevision(cache).value) in known;
    assert IsStale(cache, page) <==>
           !((forall r | Some(r) in known :: r <= revision) &&
             (Some(revision) in known ==> page.activeLeafId == Or(if cache.snapshot.Some? then cache.snapshot.value.activeLeafId else None,
                                                                   cache.turnActiveLeafId)));
    hide IncomingCards, KeptDetails, SelectedEntries, IsStale;
  }

  /** A committed prepend moves the hydration revision by one and shows the page's cards before
      the cached ones; any other leaves the cache as it was, and a no-op is reported only when
      the cards and the cursor were those of the page already. */
  lemma PrependReports(cache: Cache, page: TurnsPage)
    ensures var (next, status) := PrependTranscriptTurns(cache, page);
            && next.turnPageHydrationRevision == cache.turnPageHydrationRevision + (if status == Committed then 1 else 0)
            && (status == Committed ==> next.cards == CardsAfter(cache, page, Prepend))
            && (status != Committed ==> next == cache)
            && (status == Noop && cache.sessionId == Some(page.sessionId) ==>
                  && CardsAfter(cache, page, Prepend) == cache.cards
                  && page.nextBeforeEntryId == cache.turnBeforeEntryId)
  {
    hide CardsAfter, KeptDetails, SelectedEntries, IncomingCards, IsStale;
  }

  /** An admitted replacement makes a cache with a snapshot usable, exactly when the page's
      revision is a real one or the snapshot already knew a revision that is no newer. */
  lemma ReplaceMakesUsable(cache: Cache, page: TurnsPage)
    requires cache.snapshot.Some? && Admits(cache, page, Replace)
    ensures Usable(ApplyTranscriptTurns(cache, page, Replace), cache.sessionId) <==>
            page.transcriptRevision >= 0 ||
            (SnapshotRevision(cache).Some? && SnapshotRevision(cache).value <= page.transcriptRevision)
  {
    hide CardsAfter, KeptDetails, SelectedEntries, IncomingCards;
  }

  lemma PrependKeepsUsable(cache: Cache, page: TurnsPage)
    requires Usable(cache, cache.sessionId) && page.transcriptRevision >= 0
    ensures Usable(ApplyTranscriptTurns(cache, page, Prepend), cache.sessionId)
  {
    hide CardsAfter, KeptDetails, SelectedEntries, IncomingCards;
  }

  /** Every detail kept across a page belongs to a loaded card and ends at that card's leaf. */
  lemma {:induction false} KeptDetailsReachLeaf(details: map<Id, seq<Id>>, byId: map<Id, TurnCard>, order: seq<Id>)
    requires forall id | id in byId :: byId[id].id == id
    ensures forall id | id in KeptDetails(details, byId, order) ::
              && id in byId && id in order
              && Last(KeptDetails(details, byId, order)[id]) == Some(byId[id].activeLeafId)
              && LoadedDetail(details, byId[id]) == Some(KeptDetails(details, byId, order)[id])
    ensures forall id | id in order && id in byId && LoadedDetail(details, byId[id]).Some? &&
              Last(LoadedDetail(details, byId[id]).value) == Some(byId[id].activeLeafId) ::
              id in KeptDetails(details, byId, order)
  {
    if order != [] {
      var n := |order| - 1;
      KeptDetailsReachLeaf(details, byId, order[..n]);
      assert order == order[..n] + [order[n]];
    }
  }
}
