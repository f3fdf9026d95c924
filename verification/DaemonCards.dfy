/** The daemon's own turn cards: `turn_cards_from_rows` groups the rows of a branch in one
    go. It agrees with the client's live fold exactly on branches of a certain course. */
module DaemonCards {
  import opened CodeUnits
  import opened Transcript
  import opened TurnCards
  import opened CardLists
  import TurnDetails

  /** A row of the branch; the query leaves out the body of an assistant message that is not
      the last one before the next turn start. */
  datatype Row = Row(entry: Entry, hasBody: bool)

  datatype Anchor = Anchor(turnId: int, startedAtMs: Option<int>, sequence: int)

  datatype Build = Build(cards: seq<TurnCard>, current: Option<TurnCard>, anchor: Option<Anchor>)

  const NOTHING: Build := Build([], None, None)

  /** Stored rows have a sequence. */
  function SequenceOf(entry: Entry): int { OrElse(entry.sequence, 0) }

  /** `finalize_turn_card` */
  function Finalize(card: TurnCard): TurnCard {
    card.(id := StableId(card), canResume := card.outcome == Some(Interrupted) || card.outcome == Some(Crashed))
  }

  /** `close_open_turn` */
  function CloseOpen(build: Build): Build {
    if build.current.None? then build
    else build.(cards := build.cards + [Finalize(build.current.value)], current := None)
  }

  /** `append_entry_to_turn_card`, without the assistant message. */
  function AppendEntry(card: TurnCard, entry: Entry): TurnCard {
    var next := card.(
      activeLeafId := entry.id,
      endSequence := SequenceOf(entry),
      timestampMs := entry.timestampMs,
      turnId := if card.turnId.Some? then card.turnId else TurnIdForItem(entry.item));
    match entry.item
    case UserMessage(replayed) => if replayed then next else next.(userMessages := card.userMessages + [entry])
    case DaemonToolObservation => next.(daemonObservations := card.daemonObservations + [entry])
    case TurnFinished(turnId, outcome) =>
      next.(turnId := Some(turnId), boundaryEntryId := Some(entry.id), status := Completed, outcome := Some(outcome))
    case TurnStarted(turnId) =>
      next.(turnId := Some(turnId),
            startEntryId := if card.startEntryId.Some? then card.startEntryId else Some(entry.id))
    case CompactionSummary(_, turnId, startedAt) =>
      next.(turnId := Some(turnId), startTimestampMs := OrElse(startedAt, card.startTimestampMs))
    case _ => next
  }

  /** `append_entry_to_turn_card` */
  function AppendRow(card: TurnCard, row: Row): TurnCard {
    var next := AppendEntry(card, row.entry);
    if row.entry.item.AssistantMessage? && row.hasBody then next.(assistantMessage := Some(row.entry)) else next
  }

  /** The card of a turn start, before the row itself is appended. */
  function StartedCard(entry: Entry): TurnCard {
    TurnCard(entry.id, TurnIdForItem(entry.item), Open, None, Some(entry.id), None, entry.id,
             SequenceOf(entry), SequenceOf(entry), entry.timestampMs, entry.timestampMs, [], [], None, false)
  }

  /** The card of a row outside any turn, which takes over from the last summary. */
  function InsertedCard(entry: Entry, anchor: Option<Anchor>): TurnCard {
    var own := TurnIdForItem(entry.item);
    var resumes := anchor.Some? && anchor.value.startedAtMs.Some?;
    TurnCard(entry.id, if own.None? && anchor.Some? then Some(anchor.value.turnId) else own, Open, None, None, None, entry.id,
             if resumes then anchor.value.sequence else SequenceOf(entry), SequenceOf(entry),
             if resumes then anchor.value.startedAtMs.value else entry.timestampMs, entry.timestampMs, [], [], None, false)
  }

  /** One iteration of the loop in `turn_cards_from_rows`. */
  function BuildStep(build: Build, row: Row): Build {
    var entry := row.entry;
    match entry.item
    case CompactionSummary(_, turnId, startedAt) =>
      var anchored := build.(anchor := Some(Anchor(turnId, startedAt, SequenceOf(entry))));
      if startedAt.None? then CloseOpen(anchored)
      else if build.current.Some? then anchored.(current := Some(AppendRow(build.current.value, row)))
      else anchored
    case TurnStarted(_) =>
      Build(CloseOpen(build).cards, Some(AppendRow(StartedCard(entry), row)), None)
    case _ =>
      var card := if build.current.Some? then build.current.value else InsertedCard(entry, build.anchor);
      var next := build.(current := Some(AppendRow(card, row)));
      if entry.item.TurnFinished? then CloseOpen(next) else next
  }

  function BuildRows(rows: seq<Row>): Build {
    if rows == [] then NOTHING else BuildStep(BuildRows(rows[..|rows| - 1]), rows[|rows| - 1])
  }

  function CardsFromRows(rows: seq<Row>): seq<TurnCard> { CloseOpen(BuildRows(rows)).cards }

  /** `turn_cards_from_rows` */
  method TurnCardsFromRows(rows: seq<Row>) returns (cards: seq<TurnCard>)
    ensures cards == CardsFromRows(rows)
  {
    cards := [];
    var current: Option<TurnCard> := None;
    var anchor: Option<Anchor> := None;
    for i := 0 to |rows|
      invariant Build(cards, current, anchor) == BuildRows(rows[..i])
    {
      assert rows[..i + 1][..i] == rows[..i];
      hide AppendRow, Finalize;
      var row := rows[i];
      var entry := row.entry;
      if entry.item.CompactionSummary? {
        anchor := Some(Anchor(entry.item.lastTurnId, entry.item.turnStartedAtMs, SequenceOf(entry)));
        if entry.item.turnStartedAtMs.None? {
          if current.Some? { cards, current := cards + [Finalize(current.value)], None; }
        } else if current.Some? {
          current := Some(AppendRow(current.value, row));
        }
        continue;
      }
      if entry.item.TurnStarted? {
        if current.Some? { cards := cards + [Finalize(current.value)]; }
        anchor := None;
        current := Some(StartedCard(entry));
      }
      if current.None? { current := Some(InsertedCard(entry, anchor)); }
      current := Some(AppendRow(current.value, row));
      if entry.item.TurnFinished? { cards, current := cards + [Finalize(current.value)], None; }
    }
    assert rows[..|rows|] == rows;
    if current.Some? { cards := cards + [Finalize(current.value)]; }
  }

  // ---------- The rows of a branch ----------

  /** No assistant message follows before the next turn start. */
  predicate LastAssistant(entries: seq<Entry>, i: nat)
    requires i < |entries|
  {
    forall j | i < j < |entries| && entries[j].item.AssistantMessage? ::
      exists k :: i < k < j && entries[k].item.TurnStarted?
  }

  ghost function RowsOf(entries: seq<Entry>): seq<Row> {
    seq(|entries|, i requires 0 <= i < |entries| =>
      Row(entries[i], entries[i].item.AssistantMessage? ==> LastAssistant(entries, i)))
  }

  /** The daemon's turn cards of a branch. */
  ghost function CardsOf(entries: seq<Entry>): seq<TurnCard> { CardsFromRows(RowsOf(entries)) }

  function FullRows(entries: seq<Entry>): seq<Row> {
    seq(|entries|, i requires 0 <= i < |entries| => Row(entries[i], true))
  }

  function FullBuild(entries: seq<Entry>): Build {
    if entries == [] then NOTHING
    else BuildStep(FullBuild(entries[..|entries| - 1]), Row(entries[|entries| - 1], true))
  }

  predicate HasSequences(entries: seq<Entry>) { forall i | 0 <= i < |entries| :: entries[i].sequence.Some? }

  // ---------- Where the daemon and the client part ----------

  /** How far a branch has come: no turn yet, none but a summary to resume from, a turn with its
      id, a finished turn; or the daemon and the client have taken up an entry differently. */
  datatype Course = Unstarted | Anchored(anchor: Anchor) | InTurn(turnId: Option<int>) | AfterTurn | Parted

  /** A first entry right after a summary takes nothing over from it. */
  predicate StandsAlone(entry: Entry, anchor: Anchor) {
    && TurnIdForItem(entry.item).Some?
    && (anchor.startedAtMs.None? || (anchor.startedAtMs == Some(entry.timestampMs) && anchor.sequence == SequenceOf(entry)))
  }

  function CourseStep(course: Course, entry: Entry): Course {
    match entry.item
    case TurnStarted(turnId) => if course.Parted? then Parted else InTurn(Some(turnId))
    case CompactionSummary(_, turnId, startedAt) =>
      (match course
       case Unstarted => Anchored(Anchor(turnId, startedAt, SequenceOf(entry)))
       case Anchored(_) => Anchored(Anchor(turnId, startedAt, SequenceOf(entry)))
       case InTurn(_) => if startedAt.None? then Parted else InTurn(Some(turnId))
       case _ => course)
    case item =>
      var own := TurnIdForItem(item);
      var next := if item.TurnFinished? then AfterTurn else InTurn(own);
      match course
      case Unstarted => next
      case Anchored(anchor) => if StandsAlone(entry, anchor) then next else Parted
      case InTurn(turnId) =>
        if item.TurnFinished? then AfterTurn
        else if item.ToolCallStarted? then (if turnId.None? || turnId == own then InTurn(own) else Parted)
        else course
      case _ => Parted
  }

  function CourseOf(entries: seq<Entry>): Course {
    if entries == [] then Unstarted
    else CourseStep(CourseOf(entries[..|entries| - 1]), entries[|entries| - 1])
  }

  /** Every entry after a finished turn starts a turn or is a summary; a summary inside a turn
      carries its start time; a tool call names the turn it runs in; and the first entry of a
      branch takes nothing over from a summary before it. */
  predicate Kept(entries: seq<Entry>) { !CourseOf(entries).Parted? }

  /** The course, the daemon's build and the client's list go together. */
  predicate InStep(course: Course, build: Build, all: seq<TurnCard>) {
    match course
    case Unstarted => build == NOTHING && all == []
    case Anchored(anchor) => build == Build([], None, Some(anchor)) && all == []
    case InTurn(turnId) =>
      && build.current.Some? && all == build.cards + [Finalize(build.current.value)]
      && build.current.value.turnId == turnId && OpenCard(build.current.value)
    case AfterTurn =>
      build.current.None? && build.cards != [] && build.cards[|build.cards| - 1].status == Completed && all == build.cards
    case Parted => false
  }

  /** The entry is none of the card's, nor its start. */
  predicate NewTo(card: TurnCard, entry: Entry) {
    && card.startEntryId != Some(entry.id)
    && (forall i | 0 <= i < |card.userMessages| :: card.userMessages[i].id != entry.id)
    && (forall i | 0 <= i < |card.daemonObservations| :: card.daemonObservations[i].id != entry.id)
  }

  /** A card of a running turn. */
  predicate OpenCard(card: TurnCard) { card.status == Open && card.boundaryEntryId.None? && card.outcome.None? }

  lemma MessageAlike(card: TurnCard, entry: Entry)
    requires OpenCard(card) && NewTo(card, entry) && entry.sequence.Some?
    requires entry.item.UserMessage? || entry.item.AssistantMessage? || entry.item.DaemonToolObservation?
    ensures Renamed(UpdateTurnCard(Finalize(card), entry)) == Finalize(AppendRow(card, Row(entry, true)))
  {
    AppendUnseen(card.userMessages, entry);
    AppendUnseen(card.daemonObservations, entry);
    hide AppendUniqueEntry;
  }

  lemma MarkAlike(card: TurnCard, entry: Entry)
    requires OpenCard(card) && entry.sequence.Some?
    requires entry.item.ToolCallStarted? || entry.item.ToolResult? || entry.item.TurnFinished? || entry.item.CompactionSummary?
    requires entry.item.ToolCallStarted? ==> card.turnId.None? || card.turnId == TurnIdForItem(entry.item)
    ensures Renamed(UpdateTurnCard(Finalize(card), entry)) == Finalize(AppendRow(card, Row(entry, true)))
  {
    hide AppendUniqueEntry;
  }

  /** A running turn takes up an entry alike on both sides, if their turn ids agree. */
  lemma AppendsAlike(card: TurnCard, entry: Entry)
    requires OpenCard(card) && NewTo(card, entry)
    requires entry.sequence.Some? && !entry.item.TurnStarted?
    requires entry.item.ToolCallStarted? ==> card.turnId.None? || card.turnId == TurnIdForItem(entry.item)
    ensures Renamed(UpdateTurnCard(Finalize(card), entry)) == Finalize(AppendRow(card, Row(entry, true)))
  {
    hide UpdateTurnCard, Finalize, AppendRow, Renamed, OpenCard, NewTo;
    if entry.item.UserMessage? || entry.item.AssistantMessage? || entry.item.DaemonToolObservation? {
      MessageAlike(card, entry);
    } else {
      MarkAlike(card, entry);
    }
  }

  lemma StartsAlike(entry: Entry)
    requires entry.item.TurnStarted? && entry.sequence.Some?
    ensures UpdateTurnCard(InitialTurnCard(entry), entry) == Finalize(AppendRow(StartedCard(entry), Row(entry, true)))
    ensures Renamed(UpdateTurnCard(InitialTurnCard(entry), entry)) == UpdateTurnCard(InitialTurnCard(entry), entry)
  {
  }

  lemma InsertsAlike(entry: Entry, anchor: Option<Anchor>)
    requires Plain(entry.item) && entry.sequence.Some? && (anchor.Some? ==> StandsAlone(entry, anchor.value))
    ensures Renamed(UpdateTurnCard(InitialTurnCard(entry), entry)) ==
            Finalize(AppendRow(InsertedCard(entry, anchor), Row(entry, true)))
  {
    AppendUnseen([], entry);
    hide AppendUniqueEntry;
  }

  /** The entry is new to the last card of the list. */
  predicate NewToLast(all: seq<TurnCard>, entry: Entry) {
    all != [] ==> NewTo(all[|all| - 1], entry) && all[|all| - 1].status != Compacted
  }

  lemma FirstEntry(course: Course, build: Build, entry: Entry)
    requires (course.Unstarted? || course.Anchored?) && InStep(course, build, []) && entry.sequence.Some?
    requires !CourseStep(course, entry).Parted?
    ensures InStep(CourseStep(course, entry), BuildStep(build, Row(entry, true)), ListAfter([], entry))
  {
    if entry.item.TurnStarted? {
      StartsAlike(entry);
      AppendedCard(StartedCard(entry), entry);
    } else if !entry.item.CompactionSummary? {
      InsertsAlike(entry, build.anchor);
      AppendedCard(InsertedCard(entry, build.anchor), entry);
    }
    hide UpdateTurnCard, AppendRow, Renamed, StandsAlone;
  }

  /** What the daemon's append does to the fields the course keeps track of. */
  lemma AppendedCard(card: TurnCard, entry: Entry)
    requires OpenCard(card)
    ensures var next := AppendRow(card, Row(entry, true));
            && (entry.item.TurnFinished? ==> next.status == Completed && Finalize(next).status == Completed)
            && (!entry.item.TurnFinished? ==> OpenCard(next))
            && next.turnId ==
               (if entry.item.TurnStarted? || entry.item.TurnFinished? || entry.item.CompactionSummary? || card.turnId.None?
                then TurnIdForItem(entry.item) else card.turnId)
  {
  }

  lemma RunningEntry(course: Course, build: Build, all: seq<TurnCard>, entry: Entry)
    requires course.InTurn? && InStep(course, build, all) && entry.sequence.Some? && NewToLast(all, entry)
    requires !CourseStep(course, entry).Parted?
    ensures InStep(CourseStep(course, entry), BuildStep(build, Row(entry, true)), ListAfter(all, entry))
  {
    var card := build.current.value;
    var n := |all| - 1;
    assert all[n] == Finalize(card) && all[..n] == build.cards && NewTo(card, entry);
    if entry.item.TurnStarted? {
      StartsAlike(entry);
      AppendedCard(StartedCard(entry), entry);
    } else {
      AppendsAlike(card, entry);
      AppendedCard(card, entry);
    }
    hide UpdateTurnCard, AppendRow, Renamed, NewTo;
  }

  lemma FinishedEntry(course: Course, build: Build, all: seq<TurnCard>, entry: Entry)
    requires course.AfterTurn? && InStep(course, build, all) && entry.sequence.Some? && NewToLast(all, entry)
    requires !CourseStep(course, entry).Parted?
    ensures InStep(CourseStep(course, entry), BuildStep(build, Row(entry, true)), ListAfter(all, entry))
  {
    if entry.item.TurnStarted? {
      StartsAlike(entry);
      AppendedCard(StartedCard(entry), entry);
    }
    hide UpdateTurnCard, AppendRow, Renamed, NewTo;
  }

  lemma KeptStep(course: Course, build: Build, all: seq<TurnCard>, entry: Entry)
    requires InStep(course, build, all) && entry.sequence.Some? && NewToLast(all, entry)
    requires !CourseStep(course, entry).Parted?
    ensures InStep(CourseStep(course, entry), BuildStep(build, Row(entry, true)), ListAfter(all, entry))
  {
    match course
    case InTurn(_) => RunningEntry(course, build, all, entry);
    case AfterTurn => FinishedEntry(course, build, all, entry);
    case _ => FirstEntry(course, build, entry);
  }

  // ---------- Parting shows ----------

  /** A card without its assistant message. */
  function Bare(card: TurnCard): TurnCard { card.(assistantMessage := None) }

  predicate Alike(a: seq<TurnCard>, b: seq<TurnCard>) {
    |a| == |b| && forall i | 0 <= i < |a| :: Bare(a[i]) == Bare(b[i])
  }

  lemma RunningParts(course: Course, build: Build, all: seq<TurnCard>, entry: Entry)
    requires course.InTurn? && InStep(course, build, all) && entry.sequence.Some? && NewToLast(all, entry)
    requires CourseStep(course, entry).Parted? && all[|all| - 1].activeLeafId != entry.id
    ensures !Alike(CloseOpen(BuildStep(build, Row(entry, true))).cards, ListAfter(all, entry))
  {
    var card := build.current.value;
    var n := |all| - 1;
    var daemon := CloseOpen(BuildStep(build, Row(entry, true))).cards;
    var client := ListAfter(all, entry);
    assert all[n] == Finalize(card) && all[..n] == build.cards;
    assert client[n] == Renamed(UpdateTurnCard(Finalize(card), entry));
    if entry.item.CompactionSummary? {
      assert daemon[n].activeLeafId != client[n].activeLeafId;
    } else {
      assert daemon[n].turnId != client[n].turnId;
    }
    assert Bare(daemon[n]) != Bare(client[n]);
  }

  lemma FinishedParts(build: Build, all: seq<TurnCard>, entry: Entry)
    requires InStep(AfterTurn, build, all) && CourseStep(AfterTurn, entry).Parted?
    ensures !Alike(CloseOpen(BuildStep(build, Row(entry, true))).cards, ListAfter(all, entry))
  {
    hide UpdateTurnCard, AppendRow, Renamed, Finalize;
    assert |CloseOpen(BuildStep(build, Row(entry, true))).cards| == |all| + 1;
    assert |ListAfter(all, entry)| == |all|;
  }

  lemma FirstParts(anchor: Anchor, build: Build, entry: Entry)
    requires InStep(Anchored(anchor), build, []) && CourseStep(Anchored(anchor), entry).Parted?
    ensures !Alike(CloseOpen(BuildStep(build, Row(entry, true))).cards, ListAfter([], entry))
  {
    var daemon := CloseOpen(BuildStep(build, Row(entry, true))).cards;
    var client := ListAfter([], entry);
    assert daemon[0] == Finalize(AppendRow(InsertedCard(entry, Some(anchor)), Row(entry, true)));
    assert client[0] == Renamed(UpdateTurnCard(InitialTurnCard(entry), entry));
    assert Bare(daemon[0]) != Bare(client[0]);
  }

  // ---------- Every prefix of a kept branch ----------

  lemma AppendMovesLeaf(card: TurnCard, row: Row)
    ensures AppendRow(card, row).activeLeafId == row.entry.id
  {
  }

  lemma StepMovesLeaf(build: Build, row: Row)
    ensures var next := BuildStep(build, row);
            next.current.Some? ==> next.current == build.current || next.current.value.activeLeafId == row.entry.id
  {
    AppendMovesLeaf(StartedCard(row.entry), row);
    AppendMovesLeaf(InsertedCard(row.entry, build.anchor), row);
    if build.current.Some? {
      AppendMovesLeaf(build.current.value, row);
    }
    hide AppendRow, StartedCard, InsertedCard, Finalize;
  }

  lemma {:induction false} CurrentLeafSeen(entries: seq<Entry>)
    ensures FullBuild(entries).current.Some? ==> FullBuild(entries).current.value.activeLeafId in IdsOf(entries)
  {
    if entries != [] {
      var n := |entries| - 1;
      CurrentLeafSeen(entries[..n]);
      StepMovesLeaf(FullBuild(entries[..n]), Row(entries[n], true));
      hide BuildStep;
      assert entries[n].id in IdsOf(entries);
      assert forall id | id in IdsOf(entries[..n]) :: id in IdsOf(entries) by {
        assert forall i | 0 <= i < n :: entries[..n][i] == entries[i];
      }
    }
  }

  lemma LiveCardIsNew(card: TurnCard, id: Id, entry: Entry, seen: set<Id>)
    requires CardKeyed(id, card, seen) && entry.id !in seen
    ensures NewTo(card, entry) && card.status != Compacted
  {
    hide StableId;
  }

  lemma LastFolded(entries: seq<Entry>)
    requires FreshIds(entries) && BranchCards(entries) != []
    ensures Keyed(FoldCards(entries), IdsOf(entries)) && FoldCards(entries).order != []
    ensures BranchCards(entries)[|BranchCards(entries)| - 1] == LastCard(FoldCards(entries), IdsOf(entries))
  {
    FoldInvariant(entries);
    hide FoldCards, FreshIds, IdsOf, Filed, FoldViews, Scan, Consistent, CardsShow;
  }

  /** A new entry is new to the last card. */
  lemma EntryIsNew(entries: seq<Entry>)
    requires FreshIds(entries) && entries != []
    ensures FreshIds(entries[..|entries| - 1]) && NewToLast(BranchCards(entries[..|entries| - 1]), entries[|entries| - 1])
  {
    var init, entry := entries[..|entries| - 1], entries[|entries| - 1];
    PrefixFresh(entries);
    hide FoldCards, FreshIds, Keyed, CardKeyed, NewTo, BranchCards, IdsOf, Filed;
    if BranchCards(init) != [] {
      LastFolded(init);
      LastCardKeyed(FoldCards(init), IdsOf(init));
      LiveCardIsNew(LastCard(FoldCards(init), IdsOf(init)), FoldCards(init).order[|FoldCards(init).order| - 1], entry, IdsOf(init));
    }
  }

  lemma {:induction false} KeptInvariant(entries: seq<Entry>)
    requires FreshIds(entries) && HasSequences(entries) && Kept(entries)
    ensures InStep(CourseOf(entries), FullBuild(entries), BranchCards(entries))
  {
    if entries == [] {
      assert BranchCards(entries) == [];
    } else {
      var n := |entries| - 1;
      var init, entry := entries[..n], entries[n];
      assert init + [entry] == entries;
      EntryIsNew(entries);
      BranchCardsSnoc(init, entry);
      hide BranchCards, FreshIds, ListAfter, InStep, BuildStep, CourseStep, NewToLast;
      KeptBefore(entries);
      KeptInvariant(init);
      KeptStep(CourseOf(init), FullBuild(init), BranchCards(init), entry);
    }
  }

  lemma KeptBefore(entries: seq<Entry>)
    requires entries != [] && Kept(entries)
    ensures Kept(entries[..|entries| - 1])
  {
  }

  lemma {:induction false} KeptPrefix(entries: seq<Entry>, k: nat)
    requires k <= |entries| && Kept(entries)
    ensures Kept(entries[..k])
    decreases |entries| - k
  {
    if k < |entries| {
      KeptPrefix(entries, k + 1);
      assert entries[..k + 1][..k] == entries[..k];
      hide CourseOf;
      KeptBefore(entries[..k + 1]);
    } else {
      assert entries[..k] == entries;
    }
  }

  lemma {:induction false} PartedDiffers(entries: seq<Entry>)
    requires FreshIds(entries) && HasSequences(entries) && entries != []
    requires Kept(entries[..|entries| - 1]) && !Kept(entries)
    ensures !Alike(CloseOpen(FullBuild(entries)).cards, BranchCards(entries))
  {
    var n := |entries| - 1;
    var init, entry := entries[..n], entries[n];
    assert init + [entry] == entries;
    EntryIsNew(entries);
    BranchCardsSnoc(init, entry);
    PrefixFresh(entries);
    CurrentLeafSeen(init);
    KeptInvariant(init);
    var all := BranchCards(init);
    hide BranchCards, FreshIds, ListAfter, BuildStep, CourseStep, NewToLast, IdsOf, Alike;
    if CourseOf(init).InTurn? {
      assert all[|all| - 1].activeLeafId != entry.id;
    }
    PartingShowsFor(CourseOf(init), FullBuild(init), all, entry);
  }

  /** The step at which they part leaves lists that differ in more than assistant messages. */
  lemma PartingShowsFor(course: Course, build: Build, all: seq<TurnCard>, entry: Entry)
    requires InStep(course, build, all) && entry.sequence.Some? && NewToLast(all, entry)
    requires CourseStep(course, entry).Parted?
    requires course.InTurn? ==> all[|all| - 1].activeLeafId != entry.id
    ensures !Alike(CloseOpen(BuildStep(build, Row(entry, true))).cards, ListAfter(all, entry))
  {
    hide Alike, ListAfter, BuildStep, NewToLast;
    if course.InTurn? {
      RunningParts(course, build, all, entry);
    } else if course.AfterTurn? {
      FinishedParts(build, all, entry);
    } else if course.Anchored? {
      FirstParts(course.anchor, build, entry);
    }
  }

  // ---------- Message bodies ----------

  lemma BareAppend(a: TurnCard, b: TurnCard, row: Row)
    requires Bare(a) == Bare(b)
    ensures Bare(AppendRow(a, row)) == Bare(AppendRow(b, Row(row.entry, true)))
    ensures Bare(Finalize(a)) == Bare(Finalize(b))
  {
    assert b == a.(assistantMessage := b.assistantMessage);
    AppendApart(a, b.assistantMessage, row.entry);
    hide AppendEntry, Finalize;
  }

  /** An append does the same to a card whatever its assistant message. */
  lemma AppendApart(card: TurnCard, message: Option<Entry>, entry: Entry)
    ensures AppendEntry(card.(assistantMessage := message), entry) == AppendEntry(card, entry).(assistantMessage := message)
    ensures AppendEntry(card, entry).assistantMessage == card.assistantMessage
    ensures Finalize(card.(assistantMessage := message)) == Finalize(card).(assistantMessage := message)
  {
    match entry.item
    case UserMessage(_) =>
    case DaemonToolObservation =>
    case TurnFinished(_, _) =>
    case TurnStarted(_) =>
    case CompactionSummary(_, _, _) =>
    case _ =>
  }

  predicate AlikeBuilds(a: Build, b: Build) {
    && Alike(a.cards, b.cards) && a.anchor == b.anchor && (a.current.Some? <==> b.current.Some?)
    && (a.current.Some? ==> Bare(a.current.value) == Bare(b.current.value))
  }

  lemma AlikeClose(a: Build, b: Build)
    requires AlikeBuilds(a, b)
    ensures AlikeBuilds(CloseOpen(a), CloseOpen(b))
  {
    if a.current.Some? {
      BareAppend(a.current.value, b.current.value, Row(Entry(0, None, 0, None, ToolResult), true));
    }
    hide Finalize, Bare;
  }

  lemma AlikeStep(a: Build, b: Build, row: Row)
    requires AlikeBuilds(a, b)
    ensures AlikeBuilds(BuildStep(a, row), BuildStep(b, Row(row.entry, true)))
  {
    var entry := row.entry;
    var full := Row(entry, true);
    AlikeClose(a, b);
    BareAppend(StartedCard(entry), StartedCard(entry), row);
    BareAppend(InsertedCard(entry, a.anchor), InsertedCard(entry, b.anchor), row);
    if a.current.Some? {
      BareAppend(a.current.value, b.current.value, row);
    }
    hide AppendRow, Bare, Finalize, StartedCard, InsertedCard;
    if entry.item.CompactionSummary? {
      var anchor := Some(Anchor(entry.item.lastTurnId, entry.item.turnStartedAtMs, SequenceOf(entry)));
      AlikeClose(a.(anchor := anchor), b.(anchor := anchor));
    } else if entry.item.TurnFinished? {
      var card := if a.current.Some? then a.current.value else InsertedCard(entry, a.anchor);
      var other := if b.current.Some? then b.current.value else InsertedCard(entry, b.anchor);
      AlikeClose(a.(current := Some(AppendRow(card, row))), b.(current := Some(AppendRow(other, full))));
    }
  }

  /** Leaving out bodies changes nothing but assistant messages. */
  lemma {:induction false} BodiesOnly(entries: seq<Entry>, k: nat)
    requires k <= |entries|
    ensures AlikeBuilds(BuildRows(RowsOf(entries)[..k]), FullBuild(entries[..k]))
  {
    if k > 0 {
      BodiesOnly(entries, k - 1);
      var rows := RowsOf(entries)[..k];
      assert rows[..k - 1] == RowsOf(entries)[..k - 1] && rows[k - 1].entry == entries[k - 1];
      assert entries[..k][..k - 1] == entries[..k - 1];
      hide BuildStep, AlikeBuilds, LastAssistant;
      AlikeStep(BuildRows(rows[..k - 1]), FullBuild(entries[..k - 1]), rows[k - 1]);
    }
  }

  lemma CardsAlike(entries: seq<Entry>)
    ensures Alike(CardsOf(entries), CloseOpen(FullBuild(entries)).cards)
  {
    var n := |entries|;
    BodiesOnly(entries, n);
    assert RowsOf(entries)[..n] == RowsOf(entries) && entries[..n] == entries;
    AlikeClose(BuildRows(RowsOf(entries)), FullBuild(entries));
  }

  /** The last assistant message of the first `k` entries, if no turn has started since. */
  function PendingAssistant(entries: seq<Entry>, k: nat): Option<nat>
    requires k <= |entries|
  {
    if k == 0 || entries[k - 1].item.TurnStarted? then None
    else if entries[k - 1].item.AssistantMessage? then Some(k - 1)
    else PendingAssistant(entries, k - 1)
  }

  lemma {:induction false} PendingFacts(entries: seq<Entry>, k: nat)
    requires k <= |entries|
    ensures var p := PendingAssistant(entries, k);
            p.Some? ==>
              && p.value < k && entries[p.value].item.AssistantMessage?
              && forall j | p.value < j < k :: !entries[j].item.AssistantMessage? && !entries[j].item.TurnStarted?
  {
    if k > 0 {
      PendingFacts(entries, k - 1);
    }
  }

  /** Once a turn is closed, no assistant message comes before the next turn start. */
  lemma {:induction false} ClosedUntilStart(entries: seq<Entry>, k: nat, j: nat)
    requires NoLooseEntries(entries) && k <= j < |entries| && Scan(entries[..k]) == Closed
    requires forall t | k <= t < j :: !entries[t].item.TurnStarted?
    ensures Scan(entries[..j]) == Closed && !entries[j].item.AssistantMessage?
    decreases j
  {
    if k < j {
      ClosedUntilStart(entries, k, j - 1);
      assert entries[..j][..j - 1] == entries[..j - 1];
      PrefixNotLoose(entries, j);
    }
    assert entries[..j + 1][..j] == entries[..j];
    PrefixNotLoose(entries, j + 1);
  }

  ghost function PendingEntry(entries: seq<Entry>, k: nat): Option<Entry>
    requires k <= |entries|
  {
    PendingFacts(entries, k);
    if PendingAssistant(entries, k).Some? then Some(entries[PendingAssistant(entries, k).value]) else None
  }

  ghost predicate PendingIsLast(entries: seq<Entry>, k: nat)
    requires k <= |entries|
  {
    PendingFacts(entries, k);
    PendingAssistant(entries, k).Some? ==> LastAssistant(entries, PendingAssistant(entries, k).value)
  }

  lemma StartBetween(entries: seq<Entry>, k: nat, j: nat)
    requires NoLooseEntries(entries) && k <= j < |entries| && Scan(entries[..k]) == Closed
    requires entries[j].item.AssistantMessage?
    ensures exists t :: k <= t < j && entries[t].item.TurnStarted?
  {
    if forall t | k <= t < j :: !entries[t].item.TurnStarted? {
      ClosedUntilStart(entries, k, j);
    }
  }

  /** The pending assistant message of a turn that is closed, or ends the branch, is its last. */
  lemma ClosingIsLast(entries: seq<Entry>, k: nat)
    requires NoLooseEntries(entries) && k <= |entries|
    requires k == |entries| || entries[k].item.TurnStarted? ||
             (!entries[k].item.AssistantMessage? && Scan(entries[..k + 1]) == Closed)
    ensures PendingIsLast(entries, k)
  {
    PendingFacts(entries, k);
    if PendingAssistant(entries, k).Some? {
      var p := PendingAssistant(entries, k).value;
      hide PendingAssistant, Scan;
      forall j | p < j < |entries| && entries[j].item.AssistantMessage?
        ensures exists t :: p < t < j && entries[t].item.TurnStarted?
      {
        assert k <= j;
        if entries[k].item.TurnStarted? {
          assert p < k < j;
        } else {
          StartBetween(entries, k + 1, j);
        }
      }
    }
  }

  /** The two builds differ at most in the assistant message of the current card. */
  predicate Apart(build: Build, full: Build, message: Option<Entry>) {
    && build.cards == full.cards && build.anchor == full.anchor
    && build.current.Some? && full.current.Some?
    && build.current.value == full.current.value.(assistantMessage := message)
  }

  /** An entry that stays in the current turn. */
  lemma ApartStays(build: Build, full: Build, message: Option<Entry>, row: Row)
    requires Apart(build, full, message) && !row.entry.item.TurnStarted? && !row.entry.item.TurnFinished?
    requires row.entry.item.CompactionSummary? ==> row.entry.item.turnStartedAtMs.Some?
    ensures var entry := row.entry;
            var next, nextFull := BuildStep(build, row), BuildStep(full, Row(entry, true));
            && Apart(next, nextFull, if entry.item.AssistantMessage? && row.hasBody then Some(entry) else message)
            && nextFull.current.value.assistantMessage ==
               (if entry.item.AssistantMessage? then Some(entry) else full.current.value.assistantMessage)
  {
    AppendBoth(full.current.value, message, row);
    hide AppendRow, Finalize, InsertedCard;
  }

  lemma AppendBoth(card: TurnCard, message: Option<Entry>, row: Row)
    ensures var full := AppendRow(card, Row(row.entry, true));
            && AppendRow(card.(assistantMessage := message), row) ==
               full.(assistantMessage := if row.entry.item.AssistantMessage? && row.hasBody then Some(row.entry) else message)
            && full.assistantMessage == (if row.entry.item.AssistantMessage? then Some(row.entry) else card.assistantMessage)
  {
    AppendApart(card, message, row.entry);
    hide AppendEntry;
  }

  /** An entry that ends the current turn, when the two do not differ. */
  lemma ApartCloses(build: Build, full: Build, row: Row)
    requires build == full && row.hasBody
    ensures BuildStep(build, row) == BuildStep(full, Row(row.entry, true))
  {
  }

  lemma PendingMoves(entries: seq<Entry>, k: nat)
    requires k < |entries|
    ensures entries[k].item.TurnStarted? ==> PendingAssistant(entries, k + 1).None?
    ensures entries[k].item.AssistantMessage? ==>
              PendingEntry(entries, k + 1) == Some(entries[k]) && (PendingIsLast(entries, k + 1) <==> LastAssistant(entries, k)) &&
              (PendingAssistant(entries, k).Some? ==> !PendingIsLast(entries, k))
    ensures !entries[k].item.TurnStarted? && !entries[k].item.AssistantMessage? ==>
              && PendingAssistant(entries, k + 1) == PendingAssistant(entries, k)
              && PendingEntry(entries, k + 1) == PendingEntry(entries, k)
              && (PendingIsLast(entries, k + 1) <==> PendingIsLast(entries, k))
  {
    PendingFacts(entries, k);
    PendingFacts(entries, k + 1);
    if entries[k].item.AssistantMessage? && PendingAssistant(entries, k).Some? {
      var p := PendingAssistant(entries, k).value;
      assert p < k && forall t | p < t < k :: !entries[t].item.TurnStarted?;
    }
  }

  /** What the builds may differ in after `k` entries. */
  ghost function PendingMessage(entries: seq<Entry>, k: nat): Option<Entry>
    requires k <= |entries|
  {
    if PendingIsLast(entries, k) then PendingEntry(entries, k) else None
  }

  lemma RunningBodies(entries: seq<Entry>, k: nat, build: Build, full: Build)
    requires NoLooseEntries(entries) && k < |entries| && Scan(entries[..k]) == Running
    requires Apart(build, full, PendingMessage(entries, k)) && full.current.value.assistantMessage == PendingEntry(entries, k)
    ensures BodiesAfter(entries, k + 1, BuildStep(build, RowsOf(entries)[k]), BuildStep(full, Row(entries[k], true)))
  {
    var row := RowsOf(entries)[k];
    assert entries[..k + 1][..k] == entries[..k];
    PendingMoves(entries, k);
    if entries[k].item.TurnStarted? || entries[k].item.TurnFinished? || Scan(entries[..k + 1]) == Closed {
      ClosingIsLast(entries, k);
      assert build == full;
      ApartCloses(build, full, row);
      ClosesOrStarts(full, Row(entries[k], true));
    } else {
      ApartStays(build, full, PendingMessage(entries, k), row);
    }
    hide PendingAssistant, PendingIsLast, PendingEntry, LastAssistant, BuildStep;
  }

  lemma ClosesOrStarts(build: Build, row: Row)
    ensures row.entry.item.TurnStarted? ==>
              BuildStep(build, row).current.Some? && BuildStep(build, row).current.value.assistantMessage.None?
    ensures row.entry.item.TurnFinished? ==> BuildStep(build, row).current.None?
    ensures row.entry.item.CompactionSummary? && row.entry.item.turnStartedAtMs.None? ==> BuildStep(build, row).current.None?
    ensures row.entry.item.CompactionSummary? && build.current.None? ==> BuildStep(build, row).current.None?
  {
  }

  /** The relation after `k` entries, for the phase the branch is in. */
  ghost predicate BodiesAfter(entries: seq<Entry>, k: nat, build: Build, full: Build)
    requires k <= |entries|
  {
    var phase := Scan(entries[..k]);
    && build.cards == full.cards && build.anchor == full.anchor
    && (phase == Fresh ==> build.current.None? && full.current.None? && PendingAssistant(entries, k).None?)
    && (phase == Closed ==> build.current.None? && full.current.None?)
    && (phase == Running ==>
          Apart(build, full, PendingMessage(entries, k)) && full.current.value.assistantMessage == PendingEntry(entries, k))
  }

  lemma IdleStarts(entries: seq<Entry>, k: nat, build: Build)
    requires k < |entries| && entries[k].item.TurnStarted? && Scan(entries[..k + 1]) == Running
    ensures BodiesAfter(entries, k + 1, BuildStep(build, RowsOf(entries)[k]), BuildStep(build, Row(entries[k], true)))
  {
    PendingMoves(entries, k);
    ClosesOrStarts(build, Row(entries[k], true));
    assert RowsOf(entries)[k] == Row(entries[k], true);
    hide PendingAssistant, LastAssistant, BuildStep;
  }

  lemma IdleInserts(entries: seq<Entry>, k: nat, build: Build)
    requires k < |entries| && Plain(entries[k].item) && build.current.None? && PendingAssistant(entries, k).None?
    requires Scan(entries[..k + 1]) == if entries[k].item.TurnFinished? then Closed else Running
    ensures BodiesAfter(entries, k + 1, BuildStep(build, RowsOf(entries)[k]), BuildStep(build, Row(entries[k], true)))
  {
    var row := RowsOf(entries)[k];
    var card := InsertedCard(entries[k], build.anchor);
    PendingMoves(entries, k);
    AppendBoth(card, None, row);
    assert card == card.(assistantMessage := None);
    hide PendingAssistant, LastAssistant, AppendRow, InsertedCard, Finalize;
  }

  lemma IdleBodies(entries: seq<Entry>, k: nat, build: Build)
    requires NoLooseEntries(entries) && k < |entries| && build.current.None?
    requires Scan(entries[..k]) == Closed || (Scan(entries[..k]) == Fresh && PendingAssistant(entries, k).None?)
    ensures BodiesAfter(entries, k + 1, BuildStep(build, RowsOf(entries)[k]), BuildStep(build, Row(entries[k], true)))
  {
    assert entries[..k + 1][..k] == entries[..k];
    PrefixNotLoose(entries, k + 1);
    if entries[k].item.TurnStarted? {
      IdleStarts(entries, k, build);
    } else if entries[k].item.CompactionSummary? {
      PendingMoves(entries, k);
      ClosesOrStarts(build, Row(entries[k], true));
      assert RowsOf(entries)[k] == Row(entries[k], true);
      hide BuildStep, PendingAssistant;
    } else {
      IdleInserts(entries, k, build);
    }
  }

  lemma {:induction false} BodiesComplete(entries: seq<Entry>, k: nat)
    requires NoLooseEntries(entries) && k <= |entries|
    ensures BodiesAfter(entries, k, BuildRows(RowsOf(entries)[..k]), FullBuild(entries[..k]))
  {
    var rows := RowsOf(entries);
    if k == 0 {
      assert entries[..0] == [] && rows[..0] == [];
    } else {
      BodiesComplete(entries, k - 1);
      assert rows[..k][..k - 1] == rows[..k - 1] && entries[..k][..k - 1] == entries[..k - 1];
      var build, full := BuildRows(rows[..k - 1]), FullBuild(entries[..k - 1]);
      PrefixNotLoose(entries, k - 1);
      hide BuildStep, LastAssistant;
      if Scan(entries[..k - 1]) == Running {
        RunningBodies(entries, k - 1, build, full);
      } else {
        IdleBodies(entries, k - 1, build);
      }
    }
  }

  /** On a branch with nothing loose, leaving out bodies leaves out nothing that is shown. */
  lemma FullCards(entries: seq<Entry>)
    requires NoLooseEntries(entries)
    ensures CardsOf(entries) == CloseOpen(FullBuild(entries)).cards
  {
    var n := |entries|;
    BodiesComplete(entries, n);
    PrefixNotLoose(entries, n);
    assert RowsOf(entries)[..n] == RowsOf(entries) && entries[..n] == entries;
    ClosingIsLast(entries, n);
    hide RowsOf, BuildRows, FullBuild, Scan, LastAssistant, PendingEntry;
  }

  // ---------- The daemon against the client ----------

  /** Where a kept branch stands, in the terms of the turn scan. */
  lemma {:induction false} KeptNotLoose(entries: seq<Entry>)
    requires Kept(entries)
    ensures Scan(entries) ==
            match CourseOf(entries)
            case InTurn(_) => Running
            case AfterTurn => Closed
            case _ => Fresh
  {
    if entries != [] {
      KeptBefore(entries);
      KeptNotLoose(entries[..|entries| - 1]);
    }
  }

  /** On a kept branch the daemon's cards are the client's. */
  lemma KeptAgree(entries: seq<Entry>)
    requires FreshIds(entries) && HasSequences(entries) && Kept(entries)
    ensures CardsOf(entries) == BranchCards(entries)
  {
    KeptInvariant(entries);
    KeptNotLoose(entries);
    FullCards(entries);
    hide CardsOf, BranchCards, FullBuild, CourseOf, Scan, FreshIds, Finalize;
  }

  /** The first entry at which a branch is no longer kept. */
  lemma {:induction false} FirstParting(entries: seq<Entry>) returns (k: nat)
    requires !Kept(entries)
    ensures k < |entries| && Kept(entries[..k]) && !Kept(entries[..k + 1])
  {
    var n := |entries| - 1;
    if Kept(entries[..n]) {
      k := n;
      assert entries[..n + 1] == entries;
    } else {
      k := FirstParting(entries[..n]);
      assert entries[..n][..k] == entries[..k] && entries[..n][..k + 1] == entries[..k + 1];
    }
  }

  /** The daemon's cards and the client's are the same after every entry of a branch exactly when
      the branch is kept. */
  lemma KeptIff(entries: seq<Entry>)
    requires FreshIds(entries) && HasSequences(entries)
    ensures forall k | 0 <= k <= |entries| :: FreshIds(entries[..k])
    ensures Kept(entries) <==> forall k | 0 <= k <= |entries| :: CardsOf(entries[..k]) == BranchCards(entries[..k])
  {
    assert forall k | 0 <= k <= |entries| :: FreshIds(entries[..k]) && HasSequences(entries[..k]);
    hide FreshIds, HasSequences, CardsOf, BranchCards, Kept;
    if Kept(entries) {
      forall k | 0 <= k <= |entries|
        ensures CardsOf(entries[..k]) == BranchCards(entries[..k])
      {
        KeptPrefix(entries, k);
        KeptAgree(entries[..k]);
      }
    } else {
      var k := FirstParting(entries);
      var prefix := entries[..k + 1];
      assert prefix[..|prefix| - 1] == entries[..k];
      PartedDiffers(prefix);
      CardsAlike(prefix);
      NotAlike(CardsOf(prefix), CloseOpen(FullBuild(prefix)).cards, BranchCards(prefix));
    }
  }

  lemma NotAlike(a: seq<TurnCard>, b: seq<TurnCard>, c: seq<TurnCard>)
    requires Alike(a, b) && !Alike(b, c)
    ensures a != c
  {
    hide Bare;
  }

  /** A summary without a start time inside a turn: the daemon closes the turn before it, the
      client's card takes it up. */
  lemma SummaryParts()
    ensures var entries := [Entry(1, None, 10, Some(1), TurnStarted(7)),
                            Entry(2, Some(1), 20, Some(2), CompactionSummary(Some(1), 7, None))];
            && FreshIds(entries) && HasSequences(entries) && NoLooseEntries(entries) && !Kept(entries)
            && CardsOf(entries) != BranchCards(entries)
  {
    var entries := [Entry(1, None, 10, Some(1), TurnStarted(7)),
                    Entry(2, Some(1), 20, Some(2), CompactionSummary(Some(1), 7, None))];
    var first := entries[..1];
    assert first == [entries[0]] && first[..0] == [];
    assert CourseOf(first) == InTurn(Some(7));
    assert Scan(first) == Running;
    assert CourseOf(entries) == Parted;
    assert Scan(entries) == Closed;
    hide CardsOf, BranchCards, FullBuild, CourseOf, Scan;
    PartedDiffers(entries);
    CardsAlike(entries);
    NotAlike(CardsOf(entries), CloseOpen(FullBuild(entries)).cards, BranchCards(entries));
  }

  // ---------- The daemon against the batch form ----------

  lemma ShowsRow(card: TurnCard, turn: Turn, entry: Entry)
    requires Shows(Finalize(card), turn) && OpenCard(card) && turn.boundaryEntry.None? && Plain(entry.item)
    ensures Shows(Finalize(AppendRow(card, Row(entry, true))), ExtendTurn(turn, entry))
  {
    ObservationsSnoc(turn.entries, entry);
    NotReplayedSnoc(turn.userInputs, entry);
    hide NotReplayed, Observations, StableId;
  }

  /** The build and the turn views so far. */
  ghost predicate BuildShows(build: Build, views: Views) {
    && |build.cards| == |views.turns| && (forall i | 0 <= i < |views.turns| :: Shows(build.cards[i], views.turns[i]))
    && (build.current.Some? <==> views.current.Some?)
    && (build.current.Some? ==>
          && Shows(Finalize(build.current.value), views.current.value) && OpenCard(build.current.value)
          && views.current.value.boundaryEntry.None? && views.current.value.entries != [])
  }

  lemma ShowsClosed(build: Build, views: Views)
    requires BuildShows(build, views)
    ensures BuildShows(CloseOpen(build), CloseCurrent(views))
  {
    hide Shows, Finalize;
  }

  lemma ShowsStart(entry: Entry)
    requires entry.item.TurnStarted?
    ensures var card := AppendRow(StartedCard(entry), Row(entry, true));
            OpenCard(card) && Shows(Finalize(card), EmptyTurn(Some(entry.item.turnId), Some(entry)).(entries := [entry]))
  {
    var entries := [entry];
    assert entries[..0] == [];
    EmptyTurnShown();
    assert Observations(entries) == [];
    hide StableId, Observations, NotReplayed;
  }

  lemma ShowsInserted(entry: Entry, anchor: Option<Anchor>)
    ensures var card := InsertedCard(entry, anchor);
            OpenCard(card) && Shows(Finalize(card), EmptyTurn(TurnIdForItem(entry.item), None))
  {
    EmptyTurnShown();
    hide StableId, Observations, NotReplayed;
  }

  lemma EmptyTurnShown()
    ensures var none: seq<Entry> := []; Observations(none) == none && NotReplayed(none) == none
  {
  }

  lemma ShowsSummaryRow(card: TurnCard, turn: Turn, entry: Entry)
    requires Shows(Finalize(card), turn) && OpenCard(card) && entry.item.CompactionSummary?
    ensures Shows(Finalize(AppendRow(card, Row(entry, true))), turn) && OpenCard(AppendRow(card, Row(entry, true)))
  {
    hide NotReplayed, Observations, StableId;
  }

  lemma BuildShowsPlain(build: Build, views: Views, entry: Entry)
    requires BuildShows(build, views) && Plain(entry.item)
    ensures BuildShows(BuildStep(build, Row(entry, true)), ViewStep(views, entry))
  {
    var turn := EnsureTurn(views, TurnIdForItem(entry.item));
    var card := if build.current.Some? then build.current.value else InsertedCard(entry, build.anchor);
    ShowsInserted(entry, build.anchor);
    RetitledShows(card, views.current, turn);
    ShowsRow(card, turn, entry);
    AppendedCard(card, entry);
    assert ExtendTurn(turn, entry).entries != [];
    hide Shows, Finalize, AppendRow, InsertedCard;
  }

  lemma RetitledShows(card: TurnCard, current: Option<Turn>, turn: Turn)
    requires OpenCard(card)
    requires current.Some? ==> turn == current.value.(turnId := turn.turnId) && Shows(Finalize(card), current.value)
    requires current.None? ==> Shows(Finalize(card), turn)
    ensures Shows(Finalize(card), turn)
  {
    hide NotReplayed, Observations, StableId;
  }

  lemma BuildShowsStep(build: Build, views: Views, entry: Entry)
    requires BuildShows(build, views)
    ensures BuildShows(BuildStep(build, Row(entry, true)), ViewStep(views, entry))
  {
    if entry.item.TurnStarted? {
      ShowsStart(entry);
      ShowsClosed(build, views);
      hide Shows, Finalize, AppendRow, StartedCard;
    } else if entry.item.CompactionSummary? {
      var anchored := build.(anchor := Some(Anchor(entry.item.lastTurnId, entry.item.turnStartedAtMs, SequenceOf(entry))));
      ShowsClosed(anchored, views);
      if build.current.Some? {
        ShowsSummaryRow(build.current.value, views.current.value, entry);
      }
      hide Shows, Finalize, AppendRow;
    } else {
      BuildShowsPlain(build, views, entry);
    }
  }

  lemma {:induction false} FullBuildShows(entries: seq<Entry>)
    ensures BuildShows(FullBuild(entries), FoldViews(entries))
  {
    if entries != [] {
      var n := |entries| - 1;
      FullBuildShows(entries[..n]);
      hide BuildShows, BuildStep, ViewStep;
      BuildShowsStep(FullBuild(entries[..n]), FoldViews(entries[..n]), entries[n]);
    }
  }

  /** The daemon's cards show the turns the batch form builds, one by one, while nothing is loose. */
  lemma DaemonShowsViews(entries: seq<Entry>)
    requires NoLooseEntries(entries)
    ensures var all, turns := CardsOf(entries), TurnViews(entries);
            |all| == |turns| && forall i | 0 <= i < |all| :: Shows(all[i], turns[i])
  {
    FullCards(entries);
    FullBuildShows(entries);
    hide CardsOf, FullBuild, FoldViews, Shows, Finalize;
    ShowsClosed(FullBuild(entries), FoldViews(entries));
  }

  // ---------- Pages ----------

  /** The query for a page stops at a turn start: the rows before it and the rows from it on are
      those of the two parts. */
  lemma RowsSplit(before: seq<Entry>, rest: seq<Entry>)
    requires rest != [] && rest[0].item.TurnStarted?
    ensures RowsOf(before + rest) == RowsOf(before) + RowsOf(rest)
  {
    var all := before + rest;
    forall i | 0 <= i < |all|
      ensures RowsOf(all)[i] == (RowsOf(before) + RowsOf(rest))[i]
    {
      if i < |before| {
        assert LastAssistant(all, i) <==> LastAssistant(before, i) by { AssistantBefore(before, rest, i); }
      } else {
        assert LastAssistant(all, i) <==> LastAssistant(rest, i - |before|) by { AssistantAfter(before, rest, i - |before|); }
      }
    }
  }

  lemma AssistantBefore(before: seq<Entry>, rest: seq<Entry>, i: nat)
    requires i < |before| && rest != [] && rest[0].item.TurnStarted?
    ensures LastAssistant(before + rest, i) <==> LastAssistant(before, i)
  {
    var all := before + rest;
    if LastAssistant(all, i) {
      forall j | i < j < |before| && before[j].item.AssistantMessage?
        ensures exists k :: i < k < j && before[k].item.TurnStarted?
      {
        assert all[j] == before[j];
        var k :| i < k < j && all[k].item.TurnStarted?;
        assert before[k].item.TurnStarted?;
      }
    }
    if LastAssistant(before, i) {
      forall j | i < j < |all| && all[j].item.AssistantMessage?
        ensures exists k :: i < k < j && all[k].item.TurnStarted?
      {
        if j < |before| {
          assert before[j] == all[j];
          var k :| i < k < j && before[k].item.TurnStarted?;
          assert all[k].item.TurnStarted?;
        } else {
          assert all[|before|] == rest[0];
        }
      }
    }
  }

  lemma StartsAfter(before: seq<Entry>, rest: seq<Entry>, i: nat, j: nat)
    requires j < |rest|
    ensures (exists k :: |before| + i < k < |before| + j && (before + rest)[k].item.TurnStarted?) <==>
            (exists k :: i < k < j && rest[k].item.TurnStarted?)
  {
    var all, m := before + rest, |before|;
    if k :| m + i < k < m + j && all[k].item.TurnStarted? {
      assert rest[k - m] == all[k];
    }
    if k :| i < k < j && rest[k].item.TurnStarted? {
      assert all[m + k] == rest[k];
    }
  }

  lemma AssistantAfter(before: seq<Entry>, rest: seq<Entry>, i: nat)
    requires i < |rest|
    ensures LastAssistant(before + rest, |before| + i) <==> LastAssistant(rest, i)
  {
    var all, m := before + rest, |before|;
    if LastAssistant(all, m + i) {
      forall j | i < j < |rest| && rest[j].item.AssistantMessage?
        ensures exists k :: i < k < j && rest[k].item.TurnStarted?
      {
        assert all[m + j] == rest[j];
        StartsAfter(before, rest, i, j);
      }
    } else {
      var j :| m + i < j < |all| && all[j].item.AssistantMessage? &&
               !exists k :: m + i < k < j && all[k].item.TurnStarted?;
      StartsAfter(before, rest, i, j - m);
      assert rest[j - m] == all[j];
    }
  }

  function Behind(cards: seq<TurnCard>, build: Build): Build { build.(cards := cards + build.cards) }

  lemma StepAfter(cards: seq<TurnCard>, build: Build, row: Row)
    ensures BuildStep(Behind(cards, build), row) == Behind(cards, BuildStep(build, row))
  {
    hide AppendRow, Finalize, StartedCard, InsertedCard;
  }

  lemma StartAfter(build: Build, row: Row)
    requires row.entry.item.TurnStarted?
    ensures BuildStep(build, row) == Behind(CloseOpen(build).cards, BuildStep(NOTHING, row))
  {
    hide AppendRow, Finalize, StartedCard;
  }

  /** From a turn start on, grouping goes on as if it began there. */
  lemma {:induction false} BuildSplit(before: seq<Row>, rest: seq<Row>)
    requires rest != [] && rest[0].entry.item.TurnStarted?
    ensures BuildRows(before + rest) == Behind(CardsFromRows(before), BuildRows(rest))
    decreases |rest|
  {
    var n := |rest| - 1;
    assert (before + rest)[..|before| + n] == before + rest[..n];
    hide BuildStep, Behind, CloseOpen;
    if n == 0 {
      assert rest[..0] == [] && before + [] == before;
      StartAfter(BuildRows(before), rest[0]);
    } else {
      BuildSplit(before, rest[..n]);
      StepAfter(CardsFromRows(before), BuildRows(rest[..n]), rest[n]);
    }
  }

  /** Cutting a branch at a turn start cuts its list of cards there: a page, which holds the rows
      from one turn start up to another, is a block of the list of the whole branch. */
  lemma CardsSplit(before: seq<Entry>, rest: seq<Entry>)
    requires rest != [] && rest[0].item.TurnStarted?
    ensures CardsOf(before + rest) == CardsOf(before) + CardsOf(rest)
  {
    RowsSplit(before, rest);
    hide LastAssistant, BuildRows, Finalize;
    BuildSplit(RowsOf(before), RowsOf(rest));
  }

  lemma PageIsBlock(before: seq<Entry>, page: seq<Entry>, after: seq<Entry>)
    requires page != [] && page[0].item.TurnStarted? && (after != [] ==> after[0].item.TurnStarted?)
    ensures CardsOf(before + page + after) == CardsOf(before) + CardsOf(page) + CardsOf(after)
  {
    hide CardsOf;
    CardsSplit(before, page);
    if after == [] {
      NoCards();
      assert before + page + after == before + page;
    } else {
      CardsSplit(before + page, after);
    }
  }

  lemma NoCards()
    ensures CardsOf([]) == []
  {
  }
}
