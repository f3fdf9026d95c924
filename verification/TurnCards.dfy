/** Turn cards, built two ways: `appendTurnCard` folds one live entry into the
    loaded cards, `buildTurnViews` groups a whole branch. The two agree exactly
    on transcripts where no loose entry follows a closed turn. */
module TurnCards {
  import opened CodeUnits
  import opened Transcript

  datatype Cards = Cards(byId: map<Id, TurnCard>, order: seq<Id>)

  const NO_CARDS: Cards := Cards(map[], [])

  // ---------- The incremental form ----------

  function InitialTurnCard(entry: Entry): TurnCard {
    TurnCard(
      entry.id, TurnIdForItem(entry.item), Open, None,
      if entry.item.TurnStarted? then Some(entry.id) else None, None,
      entry.id, OrElse(entry.sequence, 0), OrElse(entry.sequence, 0),
      entry.timestampMs, entry.timestampMs, [], [], None, false)
  }

  function InitialTurnCardFromCompactionResume(compacted: TurnCard, entry: Entry): TurnCard {
    var turnId := TurnIdForItem(entry.item);
    TurnCard(
      entry.id, if turnId.Some? then turnId else compacted.turnId, Open, None,
      None, None,
      entry.id, OrElse(entry.sequence, 0), OrElse(entry.sequence, 0),
      compacted.startTimestampMs, entry.timestampMs, [], [], None, false)
  }

  function IndexOfEntry(entries: seq<Entry>, id: Id): (i: int)
    ensures -1 <= i < |entries|
    ensures i == -1 <==> forall e <- entries :: e.id != id
  {
    if entries == [] then -1
    else if entries[0].id == id then 0
    else
      var rest := IndexOfEntry(entries[1..], id);
      assert entries == [entries[0]] + entries[1..];
      if rest == -1 then -1 else rest + 1
  }

  function AppendUniqueEntry(entries: seq<Entry>, entry: Entry): seq<Entry> {
    var index := IndexOfEntry(entries, entry.id);
    if index == -1 then entries + [entry] else entries[index := entry]
  }

  function UpdateTurnCard(card: TurnCard, entry: Entry): TurnCard {
    var next := card.(
      activeLeafId := entry.id,
      endSequence := OrElse(entry.sequence, card.endSequence),
      timestampMs := entry.timestampMs,
      turnId := if card.turnId.Some? then card.turnId else TurnIdForItem(entry.item));
    match entry.item
    case TurnStarted(turnId) =>
      next.(
        turnId := Some(turnId),
        startEntryId := if next.startEntryId.Some? then next.startEntryId else Some(entry.id),
        startSequence :=
          if next.startEntryId.Some? then next.startSequence else OrElse(entry.sequence, next.startSequence))
    case UserMessage(replayed) =>
      if replayed then next else next.(userMessages := AppendUniqueEntry(next.userMessages, entry))
    case AssistantMessage => next.(assistantMessage := Some(entry))
    case DaemonToolObservation =>
      next.(daemonObservations := AppendUniqueEntry(next.daemonObservations, entry))
    case ToolCallStarted(turnId) => next.(turnId := Some(turnId))
    case ToolResult => next
    case TurnFinished(turnId, outcome) =>
      next.(
        turnId := Some(turnId),
        status := Completed,
        outcome := Some(outcome),
        boundaryEntryId := Some(entry.id),
        canResume := outcome == Interrupted || outcome == Crashed)
    case CompactionSummary(_, lastTurnId, startedAt) =>
      next.(turnId := Some(lastTurnId), startTimestampMs := OrElse(startedAt, next.startTimestampMs))
  }

  function StableId(card: TurnCard): Id {
    if card.boundaryEntryId.Some? then card.boundaryEntryId.value
    else if card.startEntryId.Some? then card.startEntryId.value
    else card.activeLeafId
  }

  function CreateTurnCard(entry: Entry): Cards {
    if entry.item.CompactionSummary? then NO_CARDS
    else
      var card := UpdateTurnCard(InitialTurnCard(entry), entry);
      var id := StableId(card);
      Cards(map[id := card.(id := id)], [id])
  }

  function ReplaceId(order: seq<Id>, previous: Id, next: Id): seq<Id> {
    if Last(order) == Some(previous) then order[..|order| - 1] + [next]
    else seq(|order|, i requires 0 <= i < |order| => if order[i] == previous then next else order[i])
  }

  /** Refresh the last card with `entry`, moving it to its new stable id. */
  function ReplaceCard(cards: Cards, previous: TurnCard, entry: Entry): Cards {
    var updated := UpdateTurnCard(previous, entry);
    var id := StableId(updated);
    Cards((cards.byId - {previous.id})[id := updated.(id := id)], ReplaceId(cards.order, previous.id, id))
  }

  /** `appendTurnCard` */
  function AppendTurnCard(cards: Cards, entry: Entry): Cards {
    if cards.order == [] then CreateTurnCard(entry)
    else
      var previousId := cards.order[|cards.order| - 1];
      if previousId !in cards.byId then cards
      else
        var previous := cards.byId[previousId];
        if entry.item.CompactionSummary? then
          if previous.status != Open then cards else ReplaceCard(cards, previous, entry)
        else if entry.item.TurnStarted? && previous.startEntryId != Some(entry.id) then
          var card := UpdateTurnCard(InitialTurnCard(entry), entry);
          Cards(cards.byId[card.id := card], cards.order + [card.id])
        else if previous.status == Compacted then
          var card := UpdateTurnCard(InitialTurnCardFromCompactionResume(previous, entry), entry);
          var id := StableId(card);
          Cards(cards.byId[id := card.(id := id)], cards.order + [id])
        else ReplaceCard(cards, previous, entry)
  }

  function FoldCards(entries: seq<Entry>): Cards {
    if entries == [] then NO_CARDS
    else AppendTurnCard(FoldCards(entries[..|entries| - 1]), entries[|entries| - 1])
  }

  // ---------- The batch form ----------

  datatype Turn = Turn(
    turnId: Option<int>,
    startEntry: Option<Entry>,
    boundaryEntry: Option<Entry>,
    outcome: Option<Outcome>,
    entries: seq<Entry>,
    userInputs: seq<Entry>,
    modelSteps: seq<Entry>,
    toolResults: seq<Entry>)

  function EmptyTurn(turnId: Option<int>, startEntry: Option<Entry>): Turn {
    Turn(turnId, startEntry, None, None, [], [], [], [])
  }

  datatype Views = Views(turns: seq<Turn>, current: Option<Turn>)

  function CloseCurrent(views: Views): Views {
    Views(if views.current.Some? && views.current.value.entries != [] then views.turns + [views.current.value]
          else views.turns, None)
  }

  function EnsureTurn(views: Views, turnId: Option<int>): Turn {
    match views.current
    case None => EmptyTurn(turnId, None)
    case Some(turn) => if turn.turnId.None? && turnId.Some? then turn.(turnId := turnId) else turn
  }

  /** Record an entry in its turn. */
  function ExtendTurn(turn: Turn, entry: Entry): Turn {
    var next := turn.(entries := turn.entries + [entry]);
    match entry.item
    case UserMessage(_) => next.(userInputs := turn.userInputs + [entry])
    case AssistantMessage => next.(modelSteps := turn.modelSteps + [entry])
    case ToolResult => next.(toolResults := turn.toolResults + [entry])
    case TurnFinished(turnId, outcome) =>
      next.(turnId := Some(turnId), boundaryEntry := Some(entry), outcome := Some(outcome))
    case _ => next
  }

  /** One iteration of the loop in `buildTurnViews`. */
  function ViewStep(views: Views, entry: Entry): Views {
    match entry.item
    case TurnStarted(turnId) =>
      Views(CloseCurrent(views).turns, Some(EmptyTurn(Some(turnId), Some(entry)).(entries := [entry])))
    case CompactionSummary(_, _, startedAt) =>
      if startedAt.None? then CloseCurrent(views) else views
    case _ =>
      var turn := ExtendTurn(EnsureTurn(views, TurnIdForItem(entry.item)), entry);
      if entry.item.TurnFinished? then CloseCurrent(Views(views.turns, Some(turn)))
      else views.(current := Some(turn))
  }

  function FoldViews(entries: seq<Entry>): Views {
    if entries == [] then Views([], None)
    else ViewStep(FoldViews(entries[..|entries| - 1]), entries[|entries| - 1])
  }

  function TurnViews(entries: seq<Entry>): seq<Turn> {
    CloseCurrent(FoldViews(entries)).turns
  }

  /** `buildTurnViews`, before the per-step display labels are added. */
  method BuildTurnViews(entries: seq<Entry>) returns (turns: seq<Turn>)
    ensures turns == TurnViews(entries)
  {
    turns := [];
    var current: Option<Turn> := None;
    for i := 0 to |entries|
      invariant Views(turns, current) == FoldViews(entries[..i])
    {
      var entry := entries[i];
      assert entries[..i + 1][..i] == entries[..i];
      if entry.item.TurnStarted? {
        if current.Some? && current.value.entries != [] { turns := turns + [current.value]; }
        current := Some(EmptyTurn(Some(entry.item.turnId), Some(entry)).(entries := [entry]));
        continue;
      }
      if entry.item.CompactionSummary? {
        if entry.item.turnStartedAtMs.None? {
          if current.Some? && current.value.entries != [] { turns := turns + [current.value]; }
          current := None;
        }
        continue;
      }
      var turn := EnsureTurn(Views(turns, current), TurnIdForItem(entry.item));
      turn := turn.(entries := turn.entries + [entry]);
      if entry.item.UserMessage? {
        turn := turn.(userInputs := turn.userInputs + [entry]);
      } else if entry.item.AssistantMessage? {
        turn := turn.(modelSteps := turn.modelSteps + [entry]);
      } else if entry.item.ToolResult? {
        turn := turn.(toolResults := turn.toolResults + [entry]);
      } else if entry.item.TurnFinished? {
        turn := turn.(turnId := Some(entry.item.turnId), boundaryEntry := Some(entry),
                      outcome := Some(entry.item.outcome));
      }
      current := Some(turn);
      if entry.item.TurnFinished? {
        turns := turns + [turn];
        current := None;
      }
    }
    assert entries[..|entries|] == entries;
    if current.Some? && current.value.entries != [] { turns := turns + [current.value]; }
  }

  // ---------- Agreement ----------

  function EntryIdOf(entry: Option<Entry>): Option<Id> {
    if entry.Some? then Some(entry.value.id) else None
  }

  function NotReplayed(inputs: seq<Entry>): seq<Entry> {
    if inputs == [] then []
    else
      var earlier := NotReplayed(inputs[..|inputs| - 1]);
      var last := inputs[|inputs| - 1];
      if last.item == UserMessage(true) then earlier else earlier + [last]
  }

  function Observations(entries: seq<Entry>): seq<Entry> {
    if entries == [] then []
    else
      var earlier := Observations(entries[..|entries| - 1]);
      var last := entries[|entries| - 1];
      if last.item.DaemonToolObservation? then earlier + [last] else earlier
  }

  /** Same start and boundary, outcome, and turn id once completed. */
  predicate ShowsOutline(card: TurnCard, turn: Turn) {
    && card.startEntryId == EntryIdOf(turn.startEntry)
    && card.boundaryEntryId == EntryIdOf(turn.boundaryEntry)
    && card.outcome == turn.outcome
    && (card.status == Completed <==> turn.boundaryEntry.Some?)
    && (card.status == Completed ==> card.turnId == turn.turnId)
    && (card.canResume <==> turn.outcome == Some(Interrupted) || turn.outcome == Some(Crashed))
  }

  /** Same own user messages, daemon observations and last assistant message. */
  predicate ShowsContents(card: TurnCard, turn: Turn) {
    && card.userMessages == NotReplayed(turn.userInputs)
    && card.daemonObservations == Observations(turn.entries)
    && card.assistantMessage == Last(turn.modelSteps)
  }

  predicate Shows(card: TurnCard, turn: Turn) { ShowsOutline(card, turn) && ShowsContents(card, turn) }

  /** Each card in order shows the turn at the same position. */
  predicate CardsShow(cards: Cards, turns: seq<Turn>) {
    && |cards.order| == |turns|
    && forall i | 0 <= i < |turns| :: cards.order[i] in cards.byId && Shows(cards.byId[cards.order[i]], turns[i])
  }

  predicate Agrees(entries: seq<Entry>) {
    CardsShow(FoldCards(entries), TurnViews(entries))
  }

  /** A scan of the transcript alone: has a turn been seen, and is one running? */
  datatype Phase = Fresh | Running | Closed | Loose

  function ScanStep(phase: Phase, item: Item): Phase {
    if phase == Loose then Loose
    else
      match item
      case TurnStarted(_) => Running
      case CompactionSummary(_, _, startedAt) => if startedAt.None? && phase == Running then Closed else phase
      case TurnFinished(_, _) => if phase == Closed then Loose else Closed
      case _ => if phase == Closed then Loose else Running
  }

  function Scan(entries: seq<Entry>): Phase {
    if entries == [] then Fresh else ScanStep(Scan(entries[..|entries| - 1]), entries[|entries| - 1].item)
  }

  /** No entry other than a turn start or a compaction summary arrives after the
      latest turn was closed (by its finish, or by a summary that does not carry
      the turn's start time). */
  predicate NoLooseEntries(entries: seq<Entry>) { Scan(entries) != Loose }

  predicate FreshIds(entries: seq<Entry>) {
    forall i, j | 0 <= i < j < |entries| :: entries[i].id != entries[j].id
  }

  function IdsOf(entries: seq<Entry>): set<Id> {
    set i | 0 <= i < |entries| :: entries[i].id
  }

  predicate EntriesSeen(entries: seq<Entry>, seen: set<Id>) {
    forall i | 0 <= i < |entries| :: entries[i].id in seen
  }

  /** A card sits under its stable id, an entry seen so far. */
  predicate CardFiled(id: Id, card: TurnCard, seen: set<Id>) {
    && id in seen && card.id == id && StableId(card) == id
    && (card.startEntryId.Some? ==> card.startEntryId.value in seen)
  }

  /** Cards are keyed by their own distinct ids. */
  ghost predicate Filed(cards: Cards, seen: set<Id>) {
    && Distinct(cards.order)
    && (forall i | 0 <= i < |cards.order| :: cards.order[i] in cards.byId)
    && (forall id | id in cards.byId :: id in cards.order)
    && (forall id | id in cards.byId :: CardFiled(id, cards.byId[id], seen))
  }

  /** A card of a live transcript: completed by its boundary, with messages seen so far. */
  predicate CardLive(card: TurnCard, seen: set<Id>) {
    && card.status != Compacted && (card.status == Completed <==> card.boundaryEntryId.Some?)
    && EntriesSeen(card.userMessages, seen) && EntriesSeen(card.daemonObservations, seen)
  }

  predicate CardKeyed(id: Id, card: TurnCard, seen: set<Id>) { CardFiled(id, card, seen) && CardLive(card, seen) }

  ghost predicate Keyed(cards: Cards, seen: set<Id>) {
    Filed(cards, seen) && forall id | id in cards.byId :: CardLive(cards.byId[id], seen)
  }

  function AllTurns(views: Views): seq<Turn> {
    views.turns + if views.current.Some? then [views.current.value] else []
  }

  predicate Consistent(views: Views, phase: Phase) {
    && (views.current.Some? ==> views.current.value.entries != [] && views.current.value.boundaryEntry.None?)
    && (phase == Fresh ==> views == Views([], None))
    && (phase == Running ==> views.current.Some?)
    && (phase == Closed ==> views.current.None? && views.turns != [])
  }

  predicate Plain(item: Item) { !item.TurnStarted? && !item.CompactionSummary? }

  lemma AppendUnseen(entries: seq<Entry>, entry: Entry)
    requires forall i | 0 <= i < |entries| :: entries[i].id != entry.id
    ensures AppendUniqueEntry(entries, entry) == entries + [entry]
  {
  }

  lemma AppendNewEntry(entries: seq<Entry>, entry: Entry, seen: set<Id>)
    requires EntriesSeen(entries, seen) && entry.id !in seen
    ensures AppendUniqueEntry(entries, entry) == entries + [entry]
    ensures EntriesSeen(entries, seen + {entry.id}) && EntriesSeen(entries + [entry], seen + {entry.id})
  {
  }

  lemma UpdateIdKeyed(card: TurnCard, id: Id, entry: Entry)
    requires card.id == id && StableId(card) == id && card.status != Compacted && !entry.item.TurnStarted?
    requires card.status == Completed <==> card.boundaryEntryId.Some?
    requires entry.item.CompactionSummary? ==> card.status == Open
    ensures var updated := UpdateTurnCard(card, entry);
            var next := StableId(updated);
            && (next == id || next == entry.id)
            && updated.status != Compacted && updated.startEntryId == card.startEntryId
            && (updated.status == Completed <==> updated.boundaryEntryId.Some?)
  {
    hide AppendUniqueEntry, TurnIdForItem;
  }

  lemma UpdateMessagesKeyed(card: TurnCard, entry: Entry, seen: set<Id>)
    requires EntriesSeen(card.userMessages, seen) && EntriesSeen(card.daemonObservations, seen) && entry.id !in seen
    ensures var updated := UpdateTurnCard(card, entry);
            && EntriesSeen(updated.userMessages, seen + {entry.id})
            && EntriesSeen(updated.daemonObservations, seen + {entry.id})
  {
    AppendNewEntry(card.userMessages, entry, seen);
    AppendNewEntry(card.daemonObservations, entry, seen);
    hide AppendUniqueEntry, EntriesSeen, TurnIdForItem;
  }

  lemma UpdateKeyed(card: TurnCard, id: Id, entry: Entry, seen: set<Id>)
    requires CardKeyed(id, card, seen) && entry.id !in seen && !entry.item.TurnStarted?
    requires entry.item.CompactionSummary? ==> card.status == Open
    ensures var updated := UpdateTurnCard(card, entry);
            var next := StableId(updated);
            && (next == id || next == entry.id)
            && CardKeyed(next, updated.(id := next), seen + {entry.id})
  {
    UpdateIdKeyed(card, id, entry);
    UpdateMessagesKeyed(card, entry, seen);
    hide UpdateTurnCard, EntriesSeen;
  }

  ghost function LastCard(cards: Cards, seen: set<Id>): TurnCard
    requires Filed(cards, seen) && cards.order != []
  {
    cards.byId[cards.order[|cards.order| - 1]]
  }

  lemma LastCardKeyed(cards: Cards, seen: set<Id>)
    requires Keyed(cards, seen) && cards.order != []
    ensures CardKeyed(cards.order[|cards.order| - 1], LastCard(cards, seen), seen)
  {
  }

  lemma SeenGrows(cards: Cards, seen: set<Id>, id: Id)
    requires Keyed(cards, seen)
    ensures Keyed(cards, seen + {id})
  {
  }

  /** Put `card` in place of the last card, under `id`. */
  function ReplaceLast(cards: Cards, id: Id, card: TurnCard): Cards
    requires cards.order != []
  {
    var n := |cards.order|;
    Cards((cards.byId - {cards.order[n - 1]})[id := card], cards.order[..n - 1] + [id])
  }

  lemma ReplaceLastFiled(cards: Cards, seen: set<Id>, id: Id, card: TurnCard, newId: Id)
    requires Filed(cards, seen) && cards.order != [] && newId !in seen
    requires id == cards.order[|cards.order| - 1] || id == newId
    requires CardFiled(id, card, seen + {newId})
    ensures Filed(ReplaceLast(cards, id, card), seen + {newId})
    ensures forall i | 0 <= i < |cards.order| - 1 ::
              cards.order[i] != id && cards.order[i] in ReplaceLast(cards, id, card).byId &&
              ReplaceLast(cards, id, card).byId[cards.order[i]] == cards.byId[cards.order[i]]
  {
    var n := |cards.order|;
    var next := ReplaceLast(cards, id, card);
    assert forall k | k in cards.byId :: CardFiled(k, cards.byId[k], seen + {newId});
    assert id != cards.order[n - 1] ==> id !in cards.byId;
    hide CardFiled;
    forall k | k in next.byId
      ensures k in next.order
    {
      if k != id {
        var i :| 0 <= i < n && cards.order[i] == k;
        assert next.order[i] == k;
      } else {
        assert next.order[n - 1] == id;
      }
    }
  }

  lemma ReplaceLastKeyed(cards: Cards, seen: set<Id>, id: Id, card: TurnCard, newId: Id)
    requires Keyed(cards, seen) && cards.order != [] && newId !in seen
    requires id == cards.order[|cards.order| - 1] || id == newId
    requires CardKeyed(id, card, seen + {newId})
    ensures Keyed(ReplaceLast(cards, id, card), seen + {newId})
    ensures forall i | 0 <= i < |cards.order| - 1 ::
              cards.order[i] != id && cards.order[i] in ReplaceLast(cards, id, card).byId &&
              ReplaceLast(cards, id, card).byId[cards.order[i]] == cards.byId[cards.order[i]]
  {
    ReplaceLastFiled(cards, seen, id, card, newId);
    SeenGrows(cards, seen, newId);
    hide Filed, CardLive, CardFiled;
  }

  /** One more card at the end. */
  function AddLast(cards: Cards, card: TurnCard): Cards {
    Cards(cards.byId[card.id := card], cards.order + [card.id])
  }

  lemma AddLastFiled(cards: Cards, seen: set<Id>, card: TurnCard)
    requires Filed(cards, seen) && card.id !in seen && CardFiled(card.id, card, seen + {card.id})
    ensures Filed(AddLast(cards, card), seen + {card.id})
  {
    var next := AddLast(cards, card);
    assert forall k | k in cards.byId :: CardFiled(k, cards.byId[k], seen + {card.id});
    assert card.id !in cards.byId && forall i | 0 <= i < |cards.order| :: cards.order[i] != card.id;
    hide CardFiled;
    forall k | k in next.byId
      ensures k in next.order
    {
      if k != card.id {
        var i :| 0 <= i < |cards.order| && cards.order[i] == k;
        assert next.order[i] == k;
      } else {
        assert next.order[|cards.order|] == k;
      }
    }
  }

  /** What `ReplaceCard` does to the last card of a keyed collection. */
  lemma ReplaceKeyed(cards: Cards, seen: set<Id>, entry: Entry)
    requires Keyed(cards, seen) && cards.order != [] && entry.id !in seen && !entry.item.TurnStarted?
    requires entry.item.CompactionSummary? ==> LastCard(cards, seen).status == Open
    ensures var updated := UpdateTurnCard(LastCard(cards, seen), entry);
            var id := StableId(updated);
            && (id == cards.order[|cards.order| - 1] || id == entry.id)
            && ReplaceCard(cards, LastCard(cards, seen), entry) == ReplaceLast(cards, id, updated.(id := id))
            && CardKeyed(id, updated.(id := id), seen + {entry.id})
  {
    var last := cards.order[|cards.order| - 1];
    LastCardKeyed(cards, seen);
    UpdateKeyed(LastCard(cards, seen), last, entry, seen);
  }

  lemma CreateKeyed(entry: Entry, seen: set<Id>)
    requires Plain(entry.item) || entry.item.TurnStarted?
    ensures Keyed(CreateTurnCard(entry), seen + {entry.id})
    ensures CreateTurnCard(entry).order == [entry.id]
  {
    assert CreateTurnCard(entry).order[0] == entry.id;
  }

  lemma StartKeyed(cards: Cards, seen: set<Id>, entry: Entry)
    requires Keyed(cards, seen) && cards.order != [] && entry.id !in seen && entry.item.TurnStarted?
    ensures var next := AppendTurnCard(cards, entry);
            var card := UpdateTurnCard(InitialTurnCard(entry), entry);
            && next.order == cards.order + [entry.id]
            && next.byId == cards.byId[entry.id := card]
            && Keyed(next, seen + {entry.id})
  {
    var card := UpdateTurnCard(InitialTurnCard(entry), entry);
    assert CardKeyed(entry.id, card, seen + {entry.id});
    LastCardKeyed(cards, seen);
    assert AppendTurnCard(cards, entry) == AddLast(cards, card);
    AddLastFiled(cards, seen, card);
    SeenGrows(cards, seen, entry.id);
    hide Filed, CardLive, CardFiled, AppendTurnCard;
  }

  /** How many cards one entry adds. */
  function CardsAdded(cards: Cards, item: Item): nat {
    if item.TurnStarted? then 1
    else if item.CompactionSummary? then 0
    else if cards.order == [] then 1 else 0
  }

  lemma AppendKeyed(cards: Cards, seen: set<Id>, entry: Entry)
    requires Keyed(cards, seen) && entry.id !in seen
    ensures Keyed(AppendTurnCard(cards, entry), seen + {entry.id})
    ensures |AppendTurnCard(cards, entry).order| == |cards.order| + CardsAdded(cards, entry.item)
  {
    if cards.order == [] {
      if !entry.item.CompactionSummary? {
        CreateKeyed(entry, seen);
      }
    } else if entry.item.TurnStarted? {
      StartKeyed(cards, seen, entry);
    } else if entry.item.CompactionSummary? && LastCard(cards, seen).status != Open {
      SeenGrows(cards, seen, entry.id);
    } else {
      var updated := UpdateTurnCard(LastCard(cards, seen), entry);
      var id := StableId(updated);
      LastCardKeyed(cards, seen);
      ReplaceKeyed(cards, seen, entry);
      ReplaceLastKeyed(cards, seen, id, updated.(id := id), entry.id);
    }
  }

  // ---------- Counting turns in the batch form ----------

  function TurnsAdded(views: Views, item: Item): nat {
    if item.TurnStarted? then 1
    else if item.CompactionSummary? then 0
    else if views.current.None? then 1 else 0
  }

  lemma ViewStepConsistent(views: Views, phase: Phase, entry: Entry)
    requires Consistent(views, phase)
    ensures Consistent(ViewStep(views, entry), ScanStep(phase, entry.item))
    ensures |AllTurns(ViewStep(views, entry))| == |AllTurns(views)| + TurnsAdded(views, entry.item)
  {
  }

  // ---------- One entry keeps cards and turns in agreement ----------

  lemma NotReplayedSnoc(inputs: seq<Entry>, entry: Entry)
    ensures NotReplayed(inputs + [entry]) ==
            if entry.item == UserMessage(true) then NotReplayed(inputs) else NotReplayed(inputs) + [entry]
  {
    assert (inputs + [entry])[..|inputs|] == inputs;
  }

  lemma ObservationsSnoc(entries: seq<Entry>, entry: Entry)
    ensures Observations(entries + [entry]) ==
            if entry.item.DaemonToolObservation? then Observations(entries) + [entry] else Observations(entries)
  {
    assert (entries + [entry])[..|entries|] == entries;
  }

  lemma OutlineExtended(card: TurnCard, turn: Turn, entry: Entry)
    requires ShowsOutline(card, turn) && turn.boundaryEntry.None? && Plain(entry.item)
    ensures ShowsOutline(UpdateTurnCard(card, entry), ExtendTurn(turn, entry))
  {
    hide AppendUniqueEntry;
  }

  lemma ContentsExtended(card: TurnCard, turn: Turn, entry: Entry)
    requires ShowsContents(card, turn) && Plain(entry.item)
    requires AppendUniqueEntry(card.userMessages, entry) == card.userMessages + [entry]
    requires AppendUniqueEntry(card.daemonObservations, entry) == card.daemonObservations + [entry]
    ensures ShowsContents(UpdateTurnCard(card, entry), ExtendTurn(turn, entry))
  {
    ObservationsSnoc(turn.entries, entry);
    NotReplayedSnoc(turn.userInputs, entry);
    hide NotReplayed, Observations, AppendUniqueEntry, TurnIdForItem;
  }

  lemma ShowsExtended(card: TurnCard, id: Id, turn: Turn, entry: Entry, seen: set<Id>)
    requires Shows(card, turn) && turn.boundaryEntry.None? && Plain(entry.item)
    requires CardKeyed(id, card, seen) && entry.id !in seen
    ensures Shows(UpdateTurnCard(card, entry), ExtendTurn(turn, entry))
  {
    AppendNewEntry(card.userMessages, entry, seen);
    AppendNewEntry(card.daemonObservations, entry, seen);
    hide AppendUniqueEntry, ShowsOutline, ShowsContents, UpdateTurnCard, ExtendTurn;
    OutlineExtended(card, turn, entry);
    ContentsExtended(card, turn, entry);
  }

  lemma ShowsFirst(entry: Entry)
    requires Plain(entry.item)
    ensures Shows(UpdateTurnCard(InitialTurnCard(entry), entry),
                  ExtendTurn(EmptyTurn(TurnIdForItem(entry.item), None), entry))
  {
    var card, turn := InitialTurnCard(entry), EmptyTurn(TurnIdForItem(entry.item), None);
    AppendUnseen([], entry);
    assert card.userMessages == [] && card.daemonObservations == [] && ShowsOutline(card, turn) && ShowsContents(card, turn);
    hide AppendUniqueEntry, ShowsOutline, ShowsContents, UpdateTurnCard, ExtendTurn;
    OutlineExtended(card, turn, entry);
    ContentsExtended(card, turn, entry);
  }

  lemma ShowsStarted(entry: Entry)
    requires entry.item.TurnStarted?
    ensures Shows(UpdateTurnCard(InitialTurnCard(entry), entry),
                  EmptyTurn(Some(entry.item.turnId), Some(entry)).(entries := [entry]))
  {
    var entries := [entry];
    assert entries[..0] == [];
  }

  lemma AllTurnsAfterPlain(views: Views, phase: Phase, entry: Entry)
    requires Consistent(views, phase) && Plain(entry.item)
    ensures AllTurns(ViewStep(views, entry)) ==
            views.turns + [ExtendTurn(EnsureTurn(views, TurnIdForItem(entry.item)), entry)]
  {
  }

  lemma ShowStarted(cards: Cards, views: Views, phase: Phase, entry: Entry, seen: set<Id>)
    requires Keyed(cards, seen) && Consistent(views, phase) && CardsShow(cards, AllTurns(views))
    requires entry.id !in seen && entry.item.TurnStarted?
    ensures CardsShow(AppendTurnCard(cards, entry), AllTurns(ViewStep(views, entry)))
  {
    var turn := EmptyTurn(Some(entry.item.turnId), Some(entry)).(entries := [entry]);
    assert AllTurns(ViewStep(views, entry)) == AllTurns(views) + [turn];
    ShowsStarted(entry);
    if cards.order != [] {
      StartKeyed(cards, seen, entry);
      ShowAppended(cards, seen, AllTurns(views), turn, UpdateTurnCard(InitialTurnCard(entry), entry), entry.id);
    }
  }

  lemma ShowAppended(cards: Cards, seen: set<Id>, turns: seq<Turn>, turn: Turn, card: TurnCard, newId: Id)
    requires Keyed(cards, seen) && newId !in seen && CardsShow(cards, turns) && Shows(card, turn)
    ensures CardsShow(Cards(cards.byId[newId := card], cards.order + [newId]), turns + [turn])
  {
    assert forall k | k in cards.byId :: CardFiled(k, cards.byId[k], seen);
    assert newId !in cards.byId;
    hide Shows, Keyed, CardKeyed;
  }

  /** Replacing the last card keeps the agreement when the new card shows the new last turn. */
  lemma ShowReplaced(cards: Cards, seen: set<Id>, turns: seq<Turn>, turn: Turn, id: Id, card: TurnCard, newId: Id)
    requires Keyed(cards, seen) && cards.order != [] && newId !in seen && CardsShow(cards, turns)
    requires id == cards.order[|cards.order| - 1] || id == newId
    requires CardKeyed(id, card, seen + {newId}) && Shows(card, turn)
    ensures CardsShow(ReplaceLast(cards, id, card), turns[..|turns| - 1] + [turn])
  {
    ReplaceLastKeyed(cards, seen, id, card, newId);
    hide Shows, Keyed, CardKeyed;
  }

  lemma ShowsSummarised(card: TurnCard, turn: Turn, entry: Entry, id: Id)
    requires Shows(card, turn) && entry.item.CompactionSummary? && card.status != Completed
    ensures Shows(UpdateTurnCard(card, entry).(id := id), turn)
  {
  }

  lemma ShowSummary(cards: Cards, views: Views, entry: Entry, seen: set<Id>)
    requires Keyed(cards, seen) && CardsShow(cards, AllTurns(views))
    requires views.current.Some? ==> views.current.value.entries != []
    requires entry.id !in seen && entry.item.CompactionSummary?
    ensures CardsShow(AppendTurnCard(cards, entry), AllTurns(ViewStep(views, entry)))
  {
    var turns := AllTurns(views);
    assert AllTurns(ViewStep(views, entry)) == turns;
    if cards.order != [] && LastCard(cards, seen).status == Open {
      var n := |cards.order|;
      var updated := UpdateTurnCard(LastCard(cards, seen), entry);
      var id := StableId(updated);
      ReplaceKeyed(cards, seen, entry);
      assert Shows(LastCard(cards, seen), turns[n - 1]);
      ShowsSummarised(LastCard(cards, seen), turns[n - 1], entry, id);
      hide Shows, UpdateTurnCard, StableId, CardKeyed, AppendTurnCard, ViewStep;
      ShowReplaced(cards, seen, turns, turns[n - 1], id, updated.(id := id), entry.id);
      assert turns[..n - 1] + [turns[n - 1]] == turns;
    }
  }

  lemma ShowPlain(cards: Cards, views: Views, phase: Phase, entry: Entry, seen: set<Id>)
    requires Keyed(cards, seen) && Consistent(views, phase) && CardsShow(cards, AllTurns(views))
    requires entry.id !in seen && Plain(entry.item) && (phase == Fresh || phase == Running)
    ensures CardsShow(AppendTurnCard(cards, entry), AllTurns(ViewStep(views, entry)))
  {
    AllTurnsAfterPlain(views, phase, entry);
    if views.current.None? {
      ShowsFirst(entry);
    } else {
      var turns := AllTurns(views);
      var turn := EnsureTurn(views, TurnIdForItem(entry.item));
      var n := |cards.order|;
      var last := LastCard(cards, seen);
      var updated := UpdateTurnCard(last, entry);
      var id := StableId(updated);
      assert turns[n - 1] == views.current.value && turns[..n - 1] == views.turns;
      LastCardKeyed(cards, seen);
      assert Shows(last, turn);
      ShowsExtended(last, cards.order[n - 1], turn, entry, seen);
      ReplaceKeyed(cards, seen, entry);
      ShowReplaced(cards, seen, turns, ExtendTurn(turn, entry), id, updated.(id := id), entry.id);
    }
  }

  // ---------- The theorem ----------

  lemma PrefixFresh(entries: seq<Entry>)
    requires FreshIds(entries) && entries != []
    ensures FreshIds(entries[..|entries| - 1])
    ensures entries[|entries| - 1].id !in IdsOf(entries[..|entries| - 1])
    ensures IdsOf(entries) == IdsOf(entries[..|entries| - 1]) + {entries[|entries| - 1].id}
  {
    var init := entries[..|entries| - 1];
    forall id | id in IdsOf(entries)
      ensures id in IdsOf(init) + {entries[|entries| - 1].id}
    {
      var i :| 0 <= i < |entries| && entries[i].id == id;
      if i < |init| {
        assert init[i].id == id;
      }
    }
    forall id | id in IdsOf(init)
      ensures id in IdsOf(entries)
    {
      var i :| 0 <= i < |init| && init[i].id == id;
      assert entries[i].id == id;
    }
  }

  /** While nothing is loose the cards show the turns; afterwards the batch form
      stays strictly ahead of the cards. */
  lemma {:induction false} FoldInvariant(entries: seq<Entry>)
    requires FreshIds(entries)
    ensures var cards := FoldCards(entries);
            var views := FoldViews(entries);
            && Keyed(cards, IdsOf(entries))
            && Consistent(views, Scan(entries))
            && (Scan(entries) != Loose ==> CardsShow(cards, AllTurns(views)))
            && (Scan(entries) == Loose ==> cards.order != [] && |cards.order| < |AllTurns(views)|)
  {
    if entries != [] {
      var init := entries[..|entries| - 1];
      var entry := entries[|entries| - 1];
      PrefixFresh(entries);
      FoldInvariant(init);
      AppendKeyed(FoldCards(init), IdsOf(init), entry);
      ViewStepConsistent(FoldViews(init), Scan(init), entry);
      if Scan(entries) != Loose {
        var cards, views, phase, seen := FoldCards(init), FoldViews(init), Scan(init), IdsOf(init);
        if entry.item.TurnStarted? {
          ShowStarted(cards, views, phase, entry, seen);
        } else if entry.item.CompactionSummary? {
          ShowSummary(cards, views, entry, seen);
        } else {
          ShowPlain(cards, views, phase, entry, seen);
        }
      }
    }
  }

  /** Folding live entries yields the batch turns exactly on transcripts with no loose
      entry. */
  lemma CardsAgreeIff(entries: seq<Entry>)
    requires FreshIds(entries)
    ensures Agrees(entries) <==> NoLooseEntries(entries)
  {
    FoldInvariant(entries);
    assert TurnViews(entries) == AllTurns(FoldViews(entries));
  }

  /** A message after a finished turn joins that turn's card, but starts a turn of its own in
      the batch form. */
  lemma LooseEntryDisagrees()
    ensures var entries := [Entry(1, None, 10, Some(1), TurnStarted(7)),
                            Entry(2, Some(1), 20, Some(2), TurnFinished(7, Graceful)),
                            Entry(3, Some(2), 30, Some(3), UserMessage(false))];
            FreshIds(entries) && !Agrees(entries)
  {
    var entries := [Entry(1, None, 10, Some(1), TurnStarted(7)),
                    Entry(2, Some(1), 20, Some(2), TurnFinished(7, Graceful)),
                    Entry(3, Some(2), 30, Some(3), UserMessage(false))];
    assert entries[..2][..1] == entries[..1] && entries[..1][..0] == [];
    assert Scan(entries[..1]) == Running;
    assert Scan(entries[..2]) == Closed;
    assert Scan(entries) == Loose;
    hide Agrees;
    CardsAgreeIff(entries);
  }

  lemma {:induction false} PrefixNotLoose(entries: seq<Entry>, k: nat)
    requires k <= |entries| && NoLooseEntries(entries)
    ensures NoLooseEntries(entries[..k])
    decreases |entries| - k
  {
    if k < |entries| {
      PrefixNotLoose(entries, k + 1);
      assert entries[..k + 1][..k] == entries[..k];
    } else {
      assert entries[..k] == entries;
    }
  }

  /** In particular they agree after every live entry of such a transcript. */
  lemma CardsAgreeAtEveryPrefix(entries: seq<Entry>, k: nat)
    requires FreshIds(entries) && k <= |entries| && NoLooseEntries(entries)
    ensures Agrees(entries[..k])
  {
    PrefixNotLoose(entries, k);
    CardsAgreeIff(entries[..k]);
  }
}
