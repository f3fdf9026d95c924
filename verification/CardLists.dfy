/** The client's turn cards as lists: what one more entry does to the list of a branch. */
module CardLists {
  import opened CodeUnits
  import opened Transcript
  import opened TurnCards
  import TurnDetails

  function Renamed(card: TurnCard): TurnCard { card.(id := StableId(card)) }

  /** `appendTurnCard` on the list of a branch. */
  function ListAfter(all: seq<TurnCard>, entry: Entry): seq<TurnCard> {
    var n := |all|;
    if n == 0 then
      if entry.item.CompactionSummary? then [] else [Renamed(UpdateTurnCard(InitialTurnCard(entry), entry))]
    else
      var previous := all[n - 1];
      if entry.item.CompactionSummary? && previous.status != Open then all
      else if entry.item.TurnStarted? && previous.startEntryId != Some(entry.id) then
        all + [UpdateTurnCard(InitialTurnCard(entry), entry)]
      else if !entry.item.CompactionSummary? && previous.status == Compacted then
        all + [Renamed(UpdateTurnCard(InitialTurnCardFromCompactionResume(previous, entry), entry))]
      else all[..n - 1] + [Renamed(UpdateTurnCard(previous, entry))]
  }

  function InOrder(cards: Cards): seq<TurnCard>
    requires forall i | 0 <= i < |cards.order| :: cards.order[i] in cards.byId
  {
    seq(|cards.order|, i requires 0 <= i < |cards.order| => cards.byId[cards.order[i]])
  }

  lemma AddedInOrder(cards: Cards, seen: set<Id>, card: TurnCard)
    requires Filed(cards, seen) && card.id !in seen
    ensures forall i | 0 <= i < |cards.order| + 1 :: AddLast(cards, card).order[i] in AddLast(cards, card).byId
    ensures InOrder(AddLast(cards, card)) == InOrder(cards) + [card]
  {
    assert forall i | 0 <= i < |cards.order| :: CardFiled(cards.order[i], cards.byId[cards.order[i]], seen);
    assert forall i | 0 <= i < |cards.order| :: cards.order[i] != card.id;
  }

  lemma ReplacedInOrder(cards: Cards, seen: set<Id>, id: Id, card: TurnCard, newId: Id)
    requires Filed(cards, seen) && cards.order != [] && newId !in seen && CardFiled(id, card, seen + {newId})
    requires id == cards.order[|cards.order| - 1] || id == newId
    ensures Filed(ReplaceLast(cards, id, card), seen + {newId})
    ensures InOrder(ReplaceLast(cards, id, card)) == InOrder(cards)[..|cards.order| - 1] + [card]
  {
    ReplaceLastFiled(cards, seen, id, card, newId);
    var next := ReplaceLast(cards, id, card);
    hide CardFiled;
    assert forall i | 0 <= i < |cards.order| - 1 :: next.order[i] == cards.order[i];
  }

  /** The list of a branch takes up an entry as a list does. */
  lemma FoldedStep(cards: Cards, seen: set<Id>, entry: Entry)
    requires Filed(cards, seen) && entry.id !in seen
    ensures Filed(AppendTurnCard(cards, entry), seen + {entry.id})
    ensures InOrder(AppendTurnCard(cards, entry)) == ListAfter(InOrder(cards), entry)
  {
    TurnDetails.AppendFiled(cards, seen, entry);
    var all := InOrder(cards);
    if cards.order == [] {
      EmptyFolds(cards, entry);
    } else {
      var last := LastCard(cards, seen);
      assert CardFiled(cards.order[|cards.order| - 1], last, seen);
      assert all[|all| - 1] == last;
      if TurnDetails.Updates(cards, seen, entry.item) {
        UpdateFolds(cards, seen, entry);
      } else if entry.item.TurnStarted? {
        var card := UpdateTurnCard(InitialTurnCard(entry), entry);
        AddedInOrder(cards, seen, card);
        assert AppendTurnCard(cards, entry) == AddLast(cards, card);
      } else if !entry.item.CompactionSummary? {
        var card := Renamed(UpdateTurnCard(InitialTurnCardFromCompactionResume(last, entry), entry));
        AddedInOrder(cards, seen, card);
        assert AppendTurnCard(cards, entry) == AddLast(cards, card);
      }
    }
  }

  lemma EmptyFolds(cards: Cards, entry: Entry)
    requires cards.order == []
    ensures forall i | 0 <= i < |AppendTurnCard(cards, entry).order| ::
              AppendTurnCard(cards, entry).order[i] in AppendTurnCard(cards, entry).byId
    ensures InOrder(AppendTurnCard(cards, entry)) == ListAfter([], entry)
  {
    hide UpdateTurnCard, StableId;
  }

  lemma UpdateFolds(cards: Cards, seen: set<Id>, entry: Entry)
    requires Filed(cards, seen) && entry.id !in seen && TurnDetails.Updates(cards, seen, entry.item)
    ensures Filed(AppendTurnCard(cards, entry), seen + {entry.id})
    ensures InOrder(AppendTurnCard(cards, entry)) == ListAfter(InOrder(cards), entry)
  {
    var updated := UpdateTurnCard(LastCard(cards, seen), entry);
    var id := StableId(updated);
    TurnDetails.UpdatedCards(cards, seen, entry);
    hide UpdateTurnCard, StableId, AppendTurnCard, CardFiled;
    ReplacedInOrder(cards, seen, id, updated.(id := id), entry.id);
    assert InOrder(cards)[|cards.order| - 1] == LastCard(cards, seen);
  }

  /** The cards the client folds from a branch. */
  ghost function BranchCards(entries: seq<Entry>): seq<TurnCard>
    requires FreshIds(entries)
  {
    FoldInvariant(entries);
    InOrder(FoldCards(entries))
  }

  lemma BranchCardsSnoc(entries: seq<Entry>, entry: Entry)
    requires FreshIds(entries + [entry])
    ensures FreshIds(entries) && BranchCards(entries + [entry]) == ListAfter(BranchCards(entries), entry)
  {
    var longer := entries + [entry];
    PrefixFresh(longer);
    assert longer[..|longer| - 1] == entries;
    FoldInvariant(entries);
    FoldInvariant(longer);
    hide AppendTurnCard, FoldViews, Scan, ListAfter, FreshIds, Filed;
    FoldedStep(FoldCards(entries), IdsOf(entries), entry);
    assert FoldCards(longer) == AppendTurnCard(FoldCards(entries), entry);
  }

  /** The folded cards of a branch show its turns. */
  lemma BranchCardsShow(entries: seq<Entry>)
    requires FreshIds(entries) && NoLooseEntries(entries)
    ensures var all, turns := BranchCards(entries), TurnViews(entries);
            |all| == |turns| && forall i | 0 <= i < |all| :: Shows(all[i], turns[i])
  {
    CardsAgreeIff(entries);
    FoldInvariant(entries);
    hide FoldCards, TurnViews, Shows, Keyed, Filed, Consistent, NoLooseEntries, FreshIds;
  }

}
