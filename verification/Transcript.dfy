/** Transcript rows and turn cards as the web client receives them. Identifiers
    are non-empty strings in the client; the model only compares them. */
module Transcript {
  import opened CodeUnits

  type Id = int

  datatype Outcome = Graceful | Interrupted | Crashed

  datatype Item =
    | TurnStarted(turnId: int)
    | UserMessage(replayedAfterCompaction: bool)
    | AssistantMessage
    | ToolCallStarted(turnId: int)
    | ToolResult
    | TurnFinished(turnId: int, outcome: Outcome)
    | DaemonToolObservation
    | CompactionSummary(sourceLeafId: Option<Id>, lastTurnId: int, turnStartedAtMs: Option<int>)

  datatype Entry = Entry(id: Id, parentId: Option<Id>, timestampMs: int, sequence: Option<int>, item: Item)

  datatype CardStatus = Open | Completed | Compacted

  datatype TurnCard = TurnCard(
    id: Id,
    turnId: Option<int>,
    status: CardStatus,
    outcome: Option<Outcome>,
    startEntryId: Option<Id>,
    boundaryEntryId: Option<Id>,
    activeLeafId: Id,
    startSequence: int,
    endSequence: int,
    startTimestampMs: int,
    timestampMs: int,
    userMessages: seq<Entry>,
    daemonObservations: seq<Entry>,
    assistantMessage: Option<Entry>,
    canResume: bool)

  /** `displayParentIdForEntry`: a compaction summary hangs below the leaf it summarises. */
  function DisplayParent(entry: Entry): Option<Id> {
    if entry.item.CompactionSummary? then entry.item.sourceLeafId else entry.parentId
  }

  /** The same, dropping a parent whose body is not in `byId`. */
  function DisplayParentIn(entry: Entry, byId: map<Id, Entry>): Option<Id> {
    var parent := DisplayParent(entry);
    if parent.Some? && parent.value !in byId then None else parent
  }

  function TurnIdForItem(item: Item): Option<int> {
    match item
    case TurnStarted(id) => Some(id)
    case TurnFinished(id, _) => Some(id)
    case ToolCallStarted(id) => Some(id)
    case CompactionSummary(_, id, _) => Some(id)
    case _ => None
  }

  /** `value ?? fallback` */
  function OrElse<T>(value: Option<T>, fallback: T): T {
    if value.Some? then value.value else fallback
  }

  /** `list.at(-1) ?? null` */
  function Last<T>(list: seq<T>): Option<T> {
    if list == [] then None else Some(list[|list| - 1])
  }

  predicate Distinct<T(==)>(list: seq<T>) {
    forall i, j | 0 <= i < j < |list| :: list[i] != list[j]
  }
}
