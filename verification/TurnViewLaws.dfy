/** What `buildTurnViews` makes of a transcript, without its loop: every entry but the
    summaries goes into exactly one turn, in order; a turn begins where one is started or
    the one before has ended, and lists its own inputs, steps and results. */
module TurnViewLaws {
  import opened CodeUnits
  import opened Transcript
  import opened TurnCards

  function Only(entries: seq<Entry>, keep: Item -> bool): seq<Entry> {
    if entries == [] then []
    else
      var n := |entries| - 1;
      Only(entries[..n], keep) + if keep(entries[n].item) then [entries[n]] else []
  }

  /** Nothing is running after these entries: the last that counts finished its turn, or is a
      summary that does not carry on one. */
  predicate AtTurnEnd(entries: seq<Entry>) {
    entries == [] ||
    match entries[|entries| - 1].item
    case CompactionSummary(_, _, startedAt) => startedAt.None? || AtTurnEnd(entries[..|entries| - 1])
    case TurnFinished(_, _) => true
    case _ => false
  }

  /** The entries that begin a turn. */
  function Openers(entries: seq<Entry>): seq<Entry> {
    if entries == [] then []
    else
      var n := |entries| - 1;
      var last := entries[n];
      Openers(entries[..n]) +
      if !last.item.CompactionSummary? && (last.item.TurnStarted? || AtTurnEnd(entries[..n])) then [last] else []
  }

  /** The first turn id any of the entries carries. */
  function FirstTurnId(entries: seq<Entry>): Option<int> {
    if entries == [] then None
    else
      var n := |entries| - 1;
      var earlier := FirstTurnId(entries[..n]);
      if earlier.Some? then earlier else TurnIdForItem(entries[n].item)
  }

  /** A turn is what its entries say. */
  ghost predicate TurnExact(turn: Turn) {
    var n := |turn.entries|;
    && n > 0
    && (forall i | 0 <= i < n :: !turn.entries[i].item.CompactionSummary?)
    && (forall i | 0 < i < n :: !turn.entries[i].item.TurnStarted?)
    && (forall i | 0 <= i < n - 1 :: !turn.entries[i].item.TurnFinished?)
    && turn.startEntry == (if turn.entries[0].item.TurnStarted? then Some(turn.entries[0]) else None)
    && turn.userInputs == Only(turn.entries, (item: Item) => item.UserMessage?)
    && turn.modelSteps == Only(turn.entries, (item: Item) => item.AssistantMessage?)
    && turn.toolResults == Only(turn.entries, (item: Item) => item.ToolResult?)
    && match turn.entries[n - 1].item
       case TurnFinished(turnId, outcome) =>
         turn.boundaryEntry == Some(turn.entries[n - 1]) && turn.outcome == Some(outcome) && turn.turnId == Some(turnId)
       case _ => turn.boundaryEntry.None? && turn.outcome.None? && turn.turnId == FirstTurnId(turn.entries)
  }

  function AllEntries(turns: seq<Turn>): seq<Entry> {
    if turns == [] then [] else AllEntries(turns[..|turns| - 1]) + turns[|turns| - 1].entries
  }

  function Firsts(turns: seq<Turn>): seq<Entry> {
    if turns == [] then []
    else Firsts(turns[..|turns| - 1]) + if turns[|turns| - 1].entries == [] then [] else [turns[|turns| - 1].entries[0]]
  }

  /** The closed turns and the running one, if any. */
  function Listed(views: Views): seq<Turn> { views.turns + if views.current.Some? then [views.current.value] else [] }

  ghost predicate ViewsExact(views: Views, entries: seq<Entry>) {
    && (forall i | 0 <= i < |Listed(views)| :: TurnExact(Listed(views)[i]))
    && AllEntries(Listed(views)) == Only(entries, (item: Item) => !item.CompactionSummary?)
    && Firsts(Listed(views)) == Openers(entries)
    && (views.current.None? <==> AtTurnEnd(entries))
    && (views.current.Some? ==> !views.current.value.entries[|views.current.value.entries| - 1].item.TurnFinished?)
  }

  lemma ListedSnoc(turns: seq<Turn>, turn: Turn)
    requires turn.entries != []
    ensures AllEntries(turns + [turn]) == AllEntries(turns) + turn.entries
    ensures Firsts(turns + [turn]) == Firsts(turns) + [turn.entries[0]]
  {
    assert (turns + [turn])[..|turns|] == turns;
  }

  lemma OnlySnoc(entries: seq<Entry>, entry: Entry, keep: Item -> bool)
    ensures Only(entries + [entry], keep) == Only(entries, keep) + if keep(entry.item) then [entry] else []
  {
    assert (entries + [entry])[..|entries|] == entries;
  }

  lemma FirstTurnIdSnoc(entries: seq<Entry>, entry: Entry)
    ensures FirstTurnId(entries + [entry]) ==
            if FirstTurnId(entries).Some? then FirstTurnId(entries) else TurnIdForItem(entry.item)
  {
    assert (entries + [entry])[..|entries|] == entries;
  }

  /** The lists of one entry. */
  lemma OfOne(entry: Entry)
    ensures Only([entry], (item: Item) => item.UserMessage?) == if entry.item.UserMessage? then [entry] else []
    ensures Only([entry], (item: Item) => item.AssistantMessage?) == if entry.item.AssistantMessage? then [entry] else []
    ensures Only([entry], (item: Item) => item.ToolResult?) == if entry.item.ToolResult? then [entry] else []
    ensures FirstTurnId([entry]) == TurnIdForItem(entry.item)
  {
    OnlyOne(entry, (item: Item) => item.UserMessage?);
    OnlyOne(entry, (item: Item) => item.AssistantMessage?);
    OnlyOne(entry, (item: Item) => item.ToolResult?);
    assert [entry][..0] == [];
  }

  /** A turn that has just begun with an entry. */
  lemma BegunExact(entry: Entry)
    requires !entry.item.CompactionSummary?
    ensures entry.item.TurnStarted? ==>
              TurnExact(EmptyTurn(Some(entry.item.turnId), Some(entry)).(entries := [entry]))
    ensures !entry.item.TurnStarted? ==> TurnExact(ExtendTurn(EmptyTurn(TurnIdForItem(entry.item), None), entry))
  {
    hide Only, FirstTurnId;
    OfOne(entry);
    if !entry.item.TurnStarted? {
      var turn := ExtendTurn(EmptyTurn(TurnIdForItem(entry.item), None), entry);
      assert [] + [entry] == [entry];
      assert turn.entries == [entry];
      assert turn.userInputs == (if entry.item.UserMessage? then [entry] else []);
      assert turn.modelSteps == (if entry.item.AssistantMessage? then [entry] else []);
      assert turn.toolResults == (if entry.item.ToolResult? then [entry] else []);
    }
  }

  lemma OnlyOne(entry: Entry, keep: Item -> bool)
    ensures Only([entry], keep) == if keep(entry.item) then [entry] else []
  {
    assert [entry][..0] == [];
  }

  /** A running turn that takes up an entry. */
  lemma ExtendedExact(turn: Turn, entry: Entry)
    requires TurnExact(turn) && !turn.entries[|turn.entries| - 1].item.TurnFinished?
    requires !entry.item.CompactionSummary? && !entry.item.TurnStarted?
    ensures TurnExact(ExtendTurn(turn.(turnId := if turn.turnId.None? then TurnIdForItem(entry.item) else turn.turnId), entry))
  {
    OnlySnoc(turn.entries, entry, (item: Item) => item.UserMessage?);
    OnlySnoc(turn.entries, entry, (item: Item) => item.AssistantMessage?);
    OnlySnoc(turn.entries, entry, (item: Item) => item.ToolResult?);
    FirstTurnIdSnoc(turn.entries, entry);
    hide Only, FirstTurnId;
  }

  /** What one more entry does to the lists the law compares with. */
  lemma TranscriptSnoc(entries: seq<Entry>, entry: Entry)
    ensures var all := entries + [entry];
            var summary := entry.item.CompactionSummary?;
            && Only(all, (item: Item) => !item.CompactionSummary?) ==
               Only(entries, (item: Item) => !item.CompactionSummary?) + (if summary then [] else [entry])
            && Openers(all) == Openers(entries) +
               (if !summary && (entry.item.TurnStarted? || AtTurnEnd(entries)) then [entry] else [])
            && (AtTurnEnd(all) <==>
                  (match entry.item
                   case CompactionSummary(_, _, startedAt) => startedAt.None? || AtTurnEnd(entries)
                   case TurnFinished(_, _) => true
                   case _ => false))
  {
    assert (entries + [entry])[..|entries|] == entries;
  }

  lemma StartStep(views: Views, entries: seq<Entry>, entry: Entry)
    requires ViewsExact(views, entries) && entry.item.TurnStarted?
    ensures ViewsExact(ViewStep(views, entry), entries + [entry])
  {
    TranscriptSnoc(entries, entry);
    BegunExact(entry);
    var turn := EmptyTurn(Some(entry.item.turnId), Some(entry)).(entries := [entry]);
    var next := ViewStep(views, entry);
    assert CloseCurrent(views).turns == Listed(views);
    assert Listed(next) == Listed(views) + [turn];
    ListedSnoc(Listed(views), turn);
    hide Only, Openers, AtTurnEnd, AllEntries, Firsts, TurnExact;
  }

  lemma SummaryStep(views: Views, entries: seq<Entry>, entry: Entry)
    requires ViewsExact(views, entries) && entry.item.CompactionSummary?
    ensures ViewsExact(ViewStep(views, entry), entries + [entry])
  {
    TranscriptSnoc(entries, entry);
    assert CloseCurrent(views).turns == Listed(views);
    assert Listed(ViewStep(views, entry)) == Listed(views);
    hide Only, Openers, AtTurnEnd, AllEntries, Firsts, TurnExact;
  }

  /** The turn an entry goes into, and the list with that turn last. */
  lemma PlainForm(views: Views, entry: Entry)
    requires !entry.item.TurnStarted? && !entry.item.CompactionSummary?
    ensures var turn := ExtendTurn(EnsureTurn(views, TurnIdForItem(entry.item)), entry);
            && ViewStep(views, entry) ==
               (if entry.item.TurnFinished? then Views(views.turns + [turn], None) else Views(views.turns, Some(turn)))
            && Listed(ViewStep(views, entry)) == views.turns + [turn]
            && turn.entries == (if views.current.Some? then views.current.value.entries else []) + [entry]
  {
  }

  lemma OpeningStep(views: Views, entries: seq<Entry>, entry: Entry)
    requires ViewsExact(views, entries) && !entry.item.TurnStarted? && !entry.item.CompactionSummary? && views.current.None?
    ensures ViewsExact(ViewStep(views, entry), entries + [entry])
  {
    var turn := ExtendTurn(EnsureTurn(views, TurnIdForItem(entry.item)), entry);
    BegunExact(entry);
    PlainForm(views, entry);
    TranscriptSnoc(entries, entry);
    assert Listed(views) == views.turns && turn.entries == [entry];
    hide ViewStep, ExtendTurn, EnsureTurn, Only, Openers, AtTurnEnd, TurnExact;
    ListedSnoc(views.turns, turn);
    hide AllEntries, Firsts;
  }

  lemma ReplacedLast(turns: seq<Turn>, running: Turn, turn: Turn, entry: Entry)
    requires running.entries != [] && turn.entries == running.entries + [entry]
    ensures AllEntries(turns + [turn]) == AllEntries(turns + [running]) + [entry]
    ensures Firsts(turns + [turn]) == Firsts(turns + [running])
  {
    ListedSnoc(turns, running);
    ListedSnoc(turns, turn);
    hide AllEntries, Firsts;
    assert turn.entries[0] == running.entries[0];
  }

  lemma RunningExact(views: Views, entry: Entry)
    requires views.current.Some? && TurnExact(views.current.value) && !entry.item.TurnStarted? && !entry.item.CompactionSummary?
    requires !views.current.value.entries[|views.current.value.entries| - 1].item.TurnFinished?
    ensures TurnExact(ExtendTurn(EnsureTurn(views, TurnIdForItem(entry.item)), entry))
  {
    ExtendedExact(views.current.value, entry);
    hide TurnExact;
  }

  lemma RunningStep(views: Views, entries: seq<Entry>, entry: Entry)
    requires ViewsExact(views, entries) && !entry.item.TurnStarted? && !entry.item.CompactionSummary? && views.current.Some?
    ensures ViewsExact(ViewStep(views, entry), entries + [entry])
  {
    hide ViewStep, ExtendTurn, EnsureTurn, Only, Openers, AtTurnEnd, TurnExact, AllEntries, Firsts;
    var running := views.current.value;
    var turn := ExtendTurn(EnsureTurn(views, TurnIdForItem(entry.item)), entry);
    assert Listed(views) == views.turns + [running] && Listed(views)[|views.turns|] == running;
    NotEmpty(running);
    RunningExact(views, entry);
    PlainForm(views, entry);
    TranscriptSnoc(entries, entry);
    ReplacedLast(views.turns, running, turn, entry);
    assert forall i | 0 <= i < |views.turns| :: (views.turns + [turn])[i] == Listed(views)[i];
  }

  lemma NotEmpty(turn: Turn)
    requires TurnExact(turn)
    ensures turn.entries != []
  {
  }

  lemma StepExact(views: Views, entries: seq<Entry>, entry: Entry)
    requires ViewsExact(views, entries)
    ensures ViewsExact(ViewStep(views, entry), entries + [entry])
  {
    hide ViewsExact, ViewStep;
    if entry.item.TurnStarted? {
      StartStep(views, entries, entry);
    } else if entry.item.CompactionSummary? {
      SummaryStep(views, entries, entry);
    } else if views.current.None? {
      OpeningStep(views, entries, entry);
    } else {
      RunningStep(views, entries, entry);
    }
  }

  lemma {:induction false} FoldExact(entries: seq<Entry>)
    ensures ViewsExact(FoldViews(entries), entries)
  {
    if entries != [] {
      var n := |entries| - 1;
      FoldExact(entries[..n]);
      assert entries[..n] + [entries[n]] == entries;
      hide ViewsExact, ViewStep;
      StepExact(FoldViews(entries[..n]), entries[..n], entries[n]);
    }
  }

  /** The turns of a transcript hold all its entries but the summaries, each once and in order,
      begin exactly with the entries that begin a turn, and each lists its own start, inputs,
      model steps, tool results, boundary, outcome and turn id. */
  lemma TurnsPartition(entries: seq<Entry>)
    ensures var turns := TurnViews(entries);
            && (forall i | 0 <= i < |turns| :: TurnExact(turns[i]))
            && AllEntries(turns) == Only(entries, (item: Item) => !item.CompactionSummary?)
            && Firsts(turns) == Openers(entries)
  {
    FoldExact(entries);
    var views := FoldViews(entries);
    assert views.current.Some? ==> TurnExact(Listed(views)[|views.turns|]);
    assert TurnViews(entries) == Listed(views);
    hide Only, Openers, AtTurnEnd, AllEntries, Firsts, TurnExact, FoldViews;
  }
}
