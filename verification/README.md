# Verified model of the web client's state layer

The web client of the agent daemon keeps a workspace URL, a cache of the selected session's
transcript, subscriptions to session events, pending provider edits, a websocket RPC connection,
a git-status index and a file cache. This project models that state layer
(`packages/web/src`) in Dafny and proves what each part promises over all inputs, all reachable
states and all interleavings of its asynchronous steps.

The model keeps the form of the code. Reducers, parsers and printers are functions on values.
Loops are methods with invariants, each proved equal to the function that specifies it. Objects
whose methods update their fields (`GitStatusIndex`, `WorkspaceFileCache`, the provider
controller, the fetch coordinator, the RPC client, the event refs of `App.tsx`) are classes whose
methods are proved to perform exactly one transition of a specification state; the theorems are
about that specification, and say from the inputs and steps what comes out of it. Callbacks, timers, replies and failures are steps that may happen at any
time; only a replay page of the event stream is requested and received in one step, and pushes
reach the client in the order the daemon sends them. Object identity (`===` on caches, providers and
sockets) is modelled by tokens.

| module | what it holds |
|---|---|
| `Collections`, `CodeUnits`, `Utf8`, `Percent` | id lists, UTF-16 strings, UTF-8 (section 3 of RFC 3629), percent-encoding (sections 2.1 and 2.3 of RFC 3986) |
| `WorkspaceRoute`, `WorkspaceRouteProofs`, `WorkspaceRouteExact` | the URL grammar: typed routes, printer, parser, corrections, recovery URLs; what the parser answers on every location |
| `Transcript`, `TurnCards`, `TurnViewLaws` | transcript rows, turn cards folded live and turn views built in one go |
| `SelectedSessionCache` | the cache record and its reducers |
| `ActiveBranch`, `BranchSync` | the active branch over every run of reducers, the render walk, and what the reducers' verdicts mean |
| `CardLists`, `DaemonCards` | turn cards as a list that takes up one entry at a time, and the daemon's own grouping of a branch into cards |
| `TurnPages`, `LiveTurns`, `TurnDetails` | pages of turn cards; live entries between them; loaded details of expanded turns |
| `TreeIndex` | the paged index of the whole transcript tree |
| `EventReplay`, `EventProgress` | replay pages, live pushes, the replay buffer, the event-id fence, what can make it lose or repeat events, and that it gets through |
| `ProviderConfiguration` | coalesced provider edits |
| `SelectedSessionFetch`, `RefreshFence` | the single-flight fetch coordinator and the staged refresh |
| `Rpc` | connection, pending requests and reconnect timer |
| `GitStatus`, `WorkspaceFileCache`, `FileCacheRuns`, `FileBrowser` | sorted prefix index, pinned LRU cache and its runs, ranged download and text prefix |

Assumptions on the surroundings, stated in the lemmas that need them: transcript rows are
immutable and their display parents are acyclic; entry ids are fresh when a row is first appended;
the daemon answers turn and tree requests with blocks of the list it holds for one revision, as its
SQL does (`rust/crates/agent-store/src/postgres/turn_cards.rs:32-156`,
`rust/crates/agent-store/src/postgres/transcript.rs:524-600`), and for turns that list is what its
own grouping makes of the branch, which is modelled (`turn_cards_from_rows`,
`rust/crates/agent-store/src/postgres/turn_cards.rs:377-539`); stored rows have a sequence; turn pages that replace the loaded
turns are requested without a cursor (`packages/web/src/App.tsx:2169-2175`); the daemon subscribes,
replays, pushes, unsubscribes and clears stored events as in
`rust/crates/agent-daemon/src/main.rs:1262-1341` and `rust/crates/agent-daemon/src/runtime/events.rs:12-21`,
it publishes events before it clears them (`rust/crates/agent-daemon/src/history.rs:214-215`,
`rust/crates/agent-daemon/src/runtime/mod.rs:684-685`), so that a connection opened later never pushes
a cleared event, and its broadcast channel does not lag; listeners and callbacks do not re-enter.

Where the code does less than one might expect, the model follows the code, shows a concrete case
and proves the exact condition:

- Folding live entries and building turn views in one go agree exactly on transcripts in which no
  entry other than a turn start or a compaction summary follows a closed turn
  (`CardsAgreeIff`, `LooseEntryDisagrees`).
- Four everyday steps can make the event stream lose or repeat events: leaving a session, a failing
  replay, a history switch (which overwrites the fence), and the daemon clearing its stored events.
  `Safe` gives each one's guard, and `SafeIff` proves the guards exact: in every state of a safe run
  a step meets its guard if and only if every safe continuation stays complete.
  - Leaving is safe exactly outside a replay. An abandoned replay loop goes on asking for pages
    (`packages/web/src/agentApi.ts:700-715`) whose events are then never handled
    (`LeaveLosesAnEvent`).
  - A switch is safe exactly when no handled event that is still stored lies above the id it writes
    (`FenceWriteSafe`): a write at or above the fence always is, and so is any write once the handled
    events are cleared. After an unsafe one, the next reconnection handles exactly the stored events
    above the id again (`RewindRepeats`, `RewindLoses`, `SwitchRepeatsAnEvent`).
  - A replay may fail without loss exactly when the connection has passed over nothing owed. The
    client itself can tell that before the connection's first page, and after it only by what it has
    collected (`FailSeenByClient`).
  - Clearing is safe exactly when nothing stored is still owed (`ClearLoses`) and the connection has
    looked at everything handled or collected: an event handled from a replay and cleared before its
    broadcast comes back once a switch has lowered the fence below it (`ClearRepeats`).
- `bytesToUtf8Prefix` also shows buffers that are no cut of any text (`GarbageTailIsShown`); a shown
  buffer is a cut exactly when the dropped tail is empty or an incomplete sequence
  (`ShownTextIsCutIff`).
- An entry right below a summary that follows a finished turn moves that turn's card but not its
  loaded detail (`StrayEntryIsLost`, and from the empty cache `DetailFallsBehind`); the detail keeps
  up exactly when the card's leaf is the tip of the branch (`LastDetailStep`).
- A detail that arrives late for an open turn covers its card exactly when cached rows link it to
  the leaf without branching (`AppliedDetailCovers`).
- A snapshot that moves the tree's revision keeps the loaded nodes; the tree stays exact exactly when
  that revision has at least that many nodes (`SnapshotKeepsIff`). Otherwise it shows nodes the
  revision does not have (`SnapshotLeavesExtra`, and as a run `OlderSnapshotShowsLateNode`).
- The daemon groups a branch into cards by another algorithm than the client folds live entries with.
  The two lists are the same after every entry exactly on branches that are `Kept` (`KeptIff`): after a
  finished turn only turn starts and summaries follow, a summary inside a turn carries the turn's
  start time, a tool call names the turn it runs in, and a first entry takes nothing over from a
  summary before it. `SummaryParts` is a branch on which they differ.
- A live entry is folded into the loaded turns even after a switch has moved the branch away from
  them. A run of a snapshot, a page, a switch and one live message ends in a cache that calls itself
  usable, so that no refresh repairs it (`packages/web/src/App.tsx:2396-2400`), with the message in a
  turn of the branch left behind (`UsableCacheMixesBranches`). A usable cache shows its own branch's
  turns if every entry that joined it arrived while the tip was the leaf of the loaded turns
  (`UsableShowsItsBranch`). Out of step, an entry that starts a turn leaves the cards an end of the
  tip's list exactly when they were one before (`OpeningIff`), and one that is folded into a turn of
  another start never does (`OutOfStepMixesBranches`).

## Model
| member | source | states |
|---|---|---|
| WorkspaceRouteProofs.ParseSerialize | packages/web/src/workspaceRoute.ts:179-394 | Parsing the printed URL of any valid typed route, given as one string or as location parts, returns that route with no warning and no correction |
| WorkspaceRouteProofs.SerializeInjective | packages/web/src/workspaceRoute.ts:368-394 | Different valid routes have different URLs |
| WorkspaceRouteProofs.ParseSound | packages/web/src/workspaceRoute.ts:179-362 | The parser is total: every route it builds is valid, its canonical URL parses back to it cleanly, and every recovery URL parses cleanly to the same scope and root |
| WorkspaceRouteExact.ParseExact | packages/web/src/workspaceRoute.ts:179-362 | The answer for every location: no route exactly outside `/w`; the scope and root are those the first segments decode to; conversation and execution URLs come out as the next rows say; every other location is unavailable with the issue and the way back that belong to it |
| WorkspaceRouteExact.ConversationExact | packages/web/src/workspaceRoute.ts:202-240 | A conversation URL matches exactly when its one further segment decodes to a valid id and the query decodes, and its messages go to that id whatever query and fragment hold; otherwise the first of the two is the issue; the warnings name exactly the parameters and the fragment dropped |
| WorkspaceRouteExact.ExecutionExact | packages/web/src/workspaceRoute.ts:262-362 | An execution URL matches exactly when focus, handoff and overview are acceptable, carries what its values print, and comes with exactly the warnings and correction reasons that apply, each once and in order; otherwise the first unacceptable value is the issue |
| WorkspaceRouteExact.MatchedExact | packages/web/src/workspaceRoute.ts:722-751 | A match is corrected exactly when it was not asked for canonically, with each applicable reason once and in order, and the noncanonical one only when there is no other |
| WorkspaceRouteExact.NamedExact | packages/web/src/workspaceRoute.ts:753-773 | A path names a scope and a root exactly when it begins with their segments |
| WorkspaceRouteExact.OwnedExact | packages/web/src/workspaceRoute.ts:1061-1063 | A path is the workspace's exactly when its first segment is `w` |
| WorkspaceRouteExact.ChosenExact | packages/web/src/workspaceRoute.ts:270-292 | A conversation parameter is taken exactly when it names another agent, is the default when it names the root, and falls back with a warning otherwise, telling a wrong root from a malformed value |
| WorkspaceRouteExact.PrintedUrl | packages/web/src/workspaceRoute.ts:368-394 | The canonical URL character for character |
| WorkspaceRouteExact.UrlParts | packages/web/src/workspaceRoute.ts:1065-1083 | A URL is cut into path, query and fragment in the only way that leaves the delimiters where they belong |
| WorkspaceRouteExact.PairParts | packages/web/src/workspaceRoute.ts:902-908 | A parameter is cut at its first equals sign, and has an empty value without one |
| WorkspaceRouteExact.QueryMark | packages/web/src/workspaceRoute.ts:900 | The question mark before a query may be missing |
| WorkspaceRouteExact.FormPartRead | packages/web/src/workspaceRoute.ts:926-932 | Query parts written as forms write them, with plus signs for spaces, are read back |
| WorkspaceRouteExact.ValidIdExact | packages/web/src/workspaceRoute.ts:934-950 | A route id is a well-formed string that trims to something, is no dot segment and holds no slash, backslash or control character |
| WorkspaceRouteProofs.UncorrectedIsClean | packages/web/src/workspaceRoute.ts:722-751 | A URL that needs no correction raises no warning |
| WorkspaceRouteProofs.PathBasesAgree | packages/web/src/workspaceRoute.ts:753-773 | The two readings of scope and root, before and after decoding the whole path, agree whenever the path decodes |
| WorkspaceRouteProofs.FocusReferenceExact | packages/web/src/workspaceRoute.ts:795-821 | A focus parameter is accepted as a focus exactly when it is that focus's printed form and the focus is valid |
| WorkspaceRouteProofs.ConversationReferenceExact | packages/web/src/workspaceRoute.ts:775-793 | A conversation parameter names an agent or the root exactly when it is the typed reference to it |
| WorkspaceRouteProofs.ExecutionAccepted | packages/web/src/workspaceRoute.ts:262-362 | An execution URL matches exactly when focus, handoff and overview are each acceptable; otherwise the first unacceptable one, in that order, is the reported issue |
| Percent.DecodeEncodePart | packages/web/src/workspaceRoute.ts:1055-1059 | Decoding an encoded part gives the part back, for every well-formed UTF-16 string |
| Percent.EncodePartAlphabet | packages/web/src/workspaceRoute.ts:1055-1059 | An encoded part holds only unreserved characters and escapes |
| Percent.EncodePartStep | packages/web/src/workspaceRoute.ts:1055-1059 | The encoding works code point by code point, leaving exactly the unreserved characters of RFC 3986 as they are |
| Percent.DecodedPercents | packages/web/src/workspaceRoute.ts:914-924 | Where a string decodes, every percent sign begins an escape of two hex digits |
| Percent.ReadByteExact | packages/web/src/workspaceRoute.ts:914-924 | Escapes are read with hex digits of either case, and nothing else is |
| Utf8.DecodeEncode | packages/web/src/workspaceRoute.ts:1055-1059 | A UTF-8 sequence decodes to the scalar value it encodes |
| Utf8.EncodeDecode | packages/web/src/fileBrowser.ts:150-167 | Bytes that decode are the encoding of what they decode to, so the shortest form is the only one accepted |
| CodeUnits.SplitJoin | packages/web/src/workspaceRoute.ts:898-912 | Splitting joined parts at a separator none of them contains gives the parts back |
| CodeUnits.JoinSplit | packages/web/src/workspaceRoute.ts:898-912 | Joining the split parts gives the string back |
| WorkspaceRoute.DecodeSegmentsLoop | packages/web/src/workspaceRoute.ts:914-924 | The decoding loop yields all decoded segments, or nothing when one is malformed |
| WorkspaceRoute.ParseQueryLoop | packages/web/src/workspaceRoute.ts:898-912 | The query loop groups the decoded values by name, or fails when a pair is malformed |
| WorkspaceRoute.GroupPairsLoop | packages/web/src/workspaceRoute.ts:898-912 | Each name holds its values in order of appearance |
| TurnCards.CardsAgreeIff | packages/web/src/selectedSessionCache/turns.ts:253-419 | The cards folded from live entries show the batch-built turns (start, boundary, outcome, own user messages, observations, last assistant message, finished turn ids, in order) exactly when no loose entry follows a closed turn |
| TurnCards.CardsAgreeAtEveryPrefix | packages/web/src/selectedSessionCache/turns.ts:253-303 | On such a transcript the two agree after every single live entry |
| TurnCards.LooseEntryDisagrees | packages/web/src/selectedSessionCache/turns.ts:294-303 | A transcript on which they do not agree |
| TurnCards.FoldInvariant | packages/web/src/selectedSessionCache/turns.ts:253-303 | Folding keeps cards keyed by their own distinct stable ids, and never holds more turns than the batch form |
| TurnCards.BuildTurnViews | packages/web/src/turnView.ts:67-125 | The grouping loop computes the specified turns |
| TurnViewLaws.TurnsPartition | packages/web/src/turnView.ts:67-125 | The turns hold every entry but the summaries once and in order, begin exactly with the entries that begin a turn, and each lists its own start, inputs, model steps, tool results, boundary, outcome and turn id |
| TurnCards.ReplaceKeyed | packages/web/src/selectedSessionCache/turns.ts:294-302 | Refreshing the last card leaves it under its old id or moves it to the entry's, and touches no other card |
| SelectedSessionCache.MergeRows | packages/web/src/selectedSessionCache/entries.ts:4-30 | Merging rows into cached rows adds exactly the new ids and alters no row |
| SelectedSessionCache.MergeEntryBodiesLoop | packages/web/src/selectedSessionCache/entries.ts:4-14 | The merge loop computes the specified map |
| SelectedSessionCache.AppendBranchLoop | packages/web/src/selectedSessionCache/entries.ts:41-56 | The append loop skips known entries and gives up at the first that does not continue the branch |
| ActiveBranch.BranchAlwaysWellLinked | packages/web/src/selectedSessionCache.ts:126-416 | After every run of snapshots, bodies, syncs, switches, live events, turn pages and details, the active branch has no duplicates and each cached entry's display parent is the preceding id |
| ActiveBranch.AppendBranchChain | packages/web/src/selectedSessionCache/entries.ts:41-56 | An accepted sync extends the branch and keeps it a chain of display parents |
| ActiveBranch.EventKeeps | packages/web/src/selectedSessionCache.ts:347-416 | A live event with any row keeps the branch a chain, whether or not it continues it |
| BranchSync.EventVerdict | packages/web/src/selectedSessionCache.ts:347-416 | A live event is reported as applied exactly when the branch grows by its entry, that is when the entry hangs below the branch's last; as ignored exactly for another session; otherwise it asks for a refresh and leaves branch and turns |
| BranchSync.EventUsableIff | packages/web/src/selectedSessionCache.ts:366-414 | A usable cache stays usable across every event but one that makes an entry off the branch the leaf |
| BranchSync.SyncVerdict | packages/web/src/selectedSessionCache.ts:186-223 | A sync is applied exactly when its new entries lead from the branch to its leaf and no body is missing, and the branch is then the old one and those entries; otherwise the cache stays as it was |
| BranchSync.AppendExact | packages/web/src/selectedSessionCache/entries.ts:41-56 | Entries are appended exactly when the new ones hang below one another from the branch's end on |
| BranchSync.SnapshotSyncs | packages/web/src/selectedSessionCache.ts:126-151 | A snapshot brings any cache in step with its leaf, keeping a branch that ends there |
| BranchSync.SwitchSyncs | packages/web/src/selectedSessionCache.ts:308-343 | After a switch the branch is the one sent, at its leaf and revision |
| BranchSync.InSyncUnlessTold | packages/web/src/selectedSessionCache.ts:126-416 | From a snapshot on, as long as no step asked for a refresh or a reload, the cached branch ends at the leaf last announced, however updates interleave |
| BranchSync.SnapshotListsBranch | packages/web/src/selectedSessionCache.ts:168-416 | Every step that sets the branch or its bodies makes the snapshot list the branch's bodies |
| BranchSync.BodiesAreCached | packages/web/src/selectedSessionCache.ts:126-416 | The bodies a step brings are cached, and none is dropped while the session stays |
| ActiveBranch.WalkShowsBranch | packages/web/src/historyTargets.ts:4-21 | When all bodies are cached, the walk from the last id gives back the whole branch in order |
| ActiveBranch.ReachableBranchIsShown | packages/web/src/historyTargets.ts:4-21 | The same in every reachable cache |
| ActiveBranch.BranchEntriesFor | packages/web/src/historyTargets.ts:4-21 | The walk ends for every list of entries, circular parents included, with the specified branch |
| ActiveBranch.WalkIsPath | packages/web/src/historyTargets.ts:4-21 | Whatever the entries, the walk visits no row twice and goes from each row to its display parent |
| TurnPages.LoadedTurnsAreASuffix | packages/web/src/selectedSessionCache/turns.ts:6-101 | For any arrival order of honest pages the turn order has no duplicates, is keyed exactly by the cards, and is the end of the daemon's list at the cached revision and leaf with the daemon's cards; once no older page is announced it is the whole list; a page that is not admitted changes nothing |
| TurnPages.PrependBlock | packages/web/src/selectedSessionCache/turns.ts:26-34 | Prepending a block that meets or overlaps the loaded turns leaves one gap-free suffix |
| TurnPages.PrependReports | packages/web/src/selectedSessionCache/turns.ts:81-117 | A committed prepend moves the hydration revision by one and puts the page's cards before the cached ones; any other leaves the cache as it was, and a no-op is reported only when cards and cursor were those of the page |
| TurnPages.OlderPageIsTaken | packages/web/src/selectedSessionCache/turns.ts:81-101 | In any run the daemon's page for the cached cursor, revision and leaf is taken: the loaded turns reach back to where it begins, it is committed if it brought a turn, and the last page makes them the whole list |
| TurnPages.ReplaceTakenIff | packages/web/src/selectedSessionCache/turns.ts:144-162 | A page replaces the turns exactly when no known revision is newer and, at a known revision, its leaf is the known one; the turns are then its cards, and otherwise nothing changes |
| TurnPages.ReplaceMakesUsable | packages/web/src/selectedSessionCache.ts:63-72 | An admitted replacement makes a cache with a snapshot usable, exactly when the page's revision is not negative or the snapshot knew one that is no newer |
| TurnPages.PrependKeepsUsable | packages/web/src/selectedSessionCache/turns.ts:95-101 | A prepend leaves a usable cache usable |
| TurnPages.KeptDetailsReachLeaf | packages/web/src/selectedSessionCache/turns.ts:35-43 | Across a page exactly the loaded details that end at their card's leaf are kept, under the card's id |
| TurnPages.ApplyTranscriptTurnsLoop | packages/web/src/selectedSessionCache/turns.ts:6-73 | The loops compute the specified cache |
| TurnPages.IncomingRows | packages/web/src/selectedSessionCache/turns.ts:15-25 | The page's cards are stored under their ids unaltered, and cached rows stay as they were |
| TurnPages.UniqueLoop | packages/web/src/selectedSessionCache/entries.ts:73-82 | The loop keeps first occurrences |
| TurnPages.Unique | packages/web/src/selectedSessionCache/entries.ts:73-82 | The result has no duplicates and the same members |
| LiveTurns.LiveTurnsStayASuffix | packages/web/src/selectedSessionCache.ts:347-416 | With live entries, pages and all other updates interleaved, the loaded turns stay the end of the list that the daemon's own grouping makes of the branch at the cached revision and leaf, keyed and without duplicates, and show the last turns that the batch form builds from that branch |
| LiveTurns.UsableShowsItsBranch | packages/web/src/selectedSessionCache.ts:63-72 | In such runs a cache that calls itself usable shows the end of the turns of its own snapshot's revision and leaf |
| LiveTurns.UsableCacheMixesBranches | packages/web/src/selectedSessionCache.ts:347-416 | A run from the empty cache (snapshot, page, switch, live message) that ends in a usable cache whose branch is the one switched to and whose only card is a turn of the other branch holding the new message, which is no end of the branch's turns |
| LiveTurns.OpeningIff | packages/web/src/selectedSessionCache/turns.ts:253-283 | A turn start folded in out of step leaves the cards an end of the tip's list exactly when they were one before |
| LiveTurns.AppendShows | packages/web/src/selectedSessionCache/turns.ts:253-303 | Folding an entry into the loaded end of a list gives the end of the list that has taken up the entry |
| CardLists.BranchCardsSnoc | packages/web/src/selectedSessionCache/turns.ts:253-303 | The turns of a branch with one more entry are its turns with that entry taken up |
| CardLists.BranchCardsShow | packages/web/src/turnView.ts:67-125 | The cards of a branch without loose entries show its batch-built turns one by one |
| LiveTurns.OutOfStepMixesBranches | packages/web/src/selectedSessionCache.ts:386-387 | An entry folded into a last loaded turn that starts elsewhere than the last turn of the tip's list leaves cards that are no end of that list |
| DaemonCards.KeptIff | rust/crates/agent-store/src/postgres/turn_cards.rs:377-448 | The daemon's batch grouping of a branch and the client's live fold give the same cards after every entry if and only if the branch is kept, which is decided entry by entry from the item kinds, turn ids and start times |
| DaemonCards.KeptAgree | rust/crates/agent-store/src/postgres/turn_cards.rs:377-539 | On a kept branch the daemon's cards equal the client's, field by field |
| DaemonCards.SummaryParts | rust/crates/agent-store/src/postgres/turn_cards.rs:386-405 | A branch without loose entries on which they differ: a summary without a start time inside a turn |
| DaemonCards.DaemonShowsViews | rust/crates/agent-store/src/postgres/turn_cards.rs:377-539 | On every branch without loose entries, kept or not, the daemon's cards show the turns that `buildTurnViews` makes of it, one by one |
| DaemonCards.FullCards | rust/crates/agent-store/src/postgres/turn_cards.rs:124-138 | Leaving out the bodies of assistant messages that another one follows changes no card of a branch without loose entries |
| DaemonCards.PageIsBlock | rust/crates/agent-store/src/postgres/turn_cards.rs:73-156 | The cards of the rows between two turn starts are a block of the cards of the whole branch, so the pages the daemon cuts there are blocks of one list |
| DaemonCards.TurnCardsFromRows | rust/crates/agent-store/src/postgres/turn_cards.rs:377-448 | The grouping loop computes the specified cards |
| TurnDetails.DetailFollowsCard | packages/web/src/selectedSessionCache.ts:385-402 | A detail that ends at its card's leaf still does after every run of live events on a well-formed branch, under the id the card then has, and has only grown |
| TurnDetails.LastDetailStep | packages/web/src/selectedSessionCache/turns.ts:225-251 | When the last card takes up an entry, its detail still ends at the card's leaf exactly when that leaf was the tip of the branch, and then has grown by that entry |
| TurnDetails.OtherDetailStep | packages/web/src/selectedSessionCache.ts:385-402 | Every other card keeps its id, contents and detail |
| TurnDetails.StrayEntryIsLost | packages/web/src/selectedSessionCache.ts:397-399 | Below any finished turn with a loaded detail, a summary and then any entry but a turn start leave the detail behind its card |
| ActiveBranch.DetailFallsBehind | packages/web/src/selectedSessionCache.ts:397-399 | A run from the empty cache in which that happens |
| TurnDetails.AppliedDetailCovers | packages/web/src/selectedSessionCache/turns.ts:164-206 | An accepted detail ends at its card's leaf exactly when cached rows link it there without branching; a closed turn's detail is taken as sent |
| TurnDetails.DetailTakenIff | packages/web/src/selectedSessionCache/turns.ts:164-182 | A detail is taken exactly for a loaded turn that is running or whose leaf it ends at; it then begins with the entries sent, and no other detail moves |
| TurnDetails.ExtendReaches | packages/web/src/selectedSessionCache/turns.ts:184-196 | An unbranched path of new rows to the leaf is followed to its end |
| TurnDetails.ExtendIsLinked | packages/web/src/selectedSessionCache/turns.ts:184-196 | Whatever is added is such a path, without repeats, and never goes past the leaf |
| TurnDetails.ExtendLoop | packages/web/src/selectedSessionCache/turns.ts:184-196 | The extension ends for every cache of rows, with the specified ids |
| TurnDetails.FindOnlyDisplayChild | packages/web/src/selectedSessionCache/turns.ts:198-206 | A child is found exactly when one cached row, and no other, hangs below the parent |
| TurnDetails.FindOnlyDisplayChildLoop | packages/web/src/selectedSessionCache/turns.ts:198-206 | The loop finds it whatever the order of the rows |
| TurnDetails.ApplyTurnDetailLoop | packages/web/src/selectedSessionCache/turns.ts:164-182 | The reducer with its loops computes the specified cache and verdict |
| TreeIndex.PagesLoadAPrefix | packages/web/src/selectedSessionCache.ts:225-259 | For any order and mix of revisions of honest pages, and snapshots that move the revision in between, the nodes are the daemon's at the cached revision up to the loaded sequence, in order of sequence; the child table is the exact inverse of the display parent; a complete tree is the whole tree |
| TreeIndex.PagesLoadTheTree | packages/web/src/selectedSessionCache.ts:225-259 | Whatever was loaded before, pages taken in a row from the beginning load exactly the nodes they carry, and the tree is complete exactly when they have reached the last node, and is then the whole tree |
| TreeIndex.PageAdds | packages/web/src/selectedSessionCache.ts:227-257 | A page from the beginning, or from where the loaded nodes of its revision end, adds its nodes to those before it and completes the tree exactly when it reaches the last |
| TreeIndex.SnapshotKeepsIff | packages/web/src/selectedSessionCache.ts:136-151 | A snapshot that moves the revision without clearing the nodes keeps the tree exact if and only if that revision has at least as many nodes as are loaded, as every later one has |
| TreeIndex.SnapshotLeavesExtra | packages/web/src/selectedSessionCache.ts:136-151 | Otherwise every loaded node past that revision's end stays in the tree although the revision does not have it |
| TreeIndex.OlderSnapshotShowsLateNode | packages/web/src/selectedSessionCache.ts:136-151 | A page of revision 2 and a snapshot of the empty revision 1 leave a tree of revision 1 that shows a node |
| TreeIndex.ApplyTreeIndex | packages/web/src/selectedSessionCache.ts:225-259 | One page makes exactly the specified step |
| TreeIndex.BuildTreeChildren | packages/web/src/selectedSessionCache.ts:489-500 | Every parent lists its children in tree order, and no parent an empty list |
| TreeIndex.BelowExact | packages/web/src/selectedSessionCache.ts:489-500 | A node is listed below a parent exactly when that is its display parent, and once |
| TreeIndex.SortBySequence | packages/web/src/selectedSessionCache.ts:235-237 | The order lists every loaded node once by ascending sequence |
| TreeIndex.OrderOfPrefix | packages/web/src/selectedSessionCache.ts:235-237 | With distinct sequences that order is the daemon's |
| EventReplay.HandledExactly | packages/web/src/App.tsx:2936-2958 | In every safe interleaving of logging, clearing, connections, replay pages, pushes, fence writes, departures and failures the handled events are strictly ascending and are exactly the logged ones that are at or below the fence or cleared, and were not skipped; once caught up, all that were not skipped |
| EventReplay.SafeIff | packages/web/src/App.tsx:2928-2956 | The guards of the steps that can lose or repeat events are exact: a step meets its guard if and only if every safe continuation keeps the record complete |
| EventReplay.OneSubscription | packages/web/src/agentApi.ts:697-716 | A subscription with a cursor handles exactly the events above it that are stored or logged later, each once and in ascending order, across every safe run |
| EventProgress.SkippedBecause | packages/web/src/App.tsx:2416-2418 | An event is skipped only because of a snapshot or a switch at or above it, or because it was logged before a subscription without a cursor began |
| EventProgress.UnexcusedIsHandled | packages/web/src/App.tsx:2936-2958 | In every safe run an event below the fence, cleared, or looked at by a caught-up client that no step excuses has been handled |
| EventProgress.ReplayEnds | packages/web/src/agentApi.ts:697-716 | A replay that goes on ends after at most one page more than it has events left, whatever the page size |
| EventProgress.ReconnectedHasAll | packages/web/src/App.tsx:2936-2958 | From every state of a safe run, a client that reconnects and is answered has handled every logged event it did not skip |
| EventProgress.LeftIsQuiet | rust/crates/agent-daemon/src/main.rs:1262-1341 | A client that left and said so is pushed nothing once the daemon knows |
| EventReplay.FenceWriteSafe | packages/web/src/App.tsx:3646 | Overwriting the fence is safe at or above it, and in general exactly when the reconnection after it handles no event a second time |
| EventReplay.RewindRepeats | packages/web/src/App.tsx:3646 | After a switch overwrote the fence, the next reconnection handles exactly the stored events above it, and exactly the handled ones among them a second time |
| EventReplay.SwitchRepeatsAnEvent | packages/web/src/App.tsx:3646 | A run in which a switch makes event 2 be handled twice |
| EventReplay.FailSeenByClient | packages/web/src/App.tsx:2952-2956 | A replay fails without loss as long as no page has arrived on its connection; once it holds replayed events, only if a snapshot covers everything replayed or buffered above the fence |
| EventReplay.LeaveLosesAnEvent | packages/web/src/App.tsx:2928-2935 | A run in which a client that leaves mid-replay never handles an event logged above its cursor |
| EventReplay.LeaveLoses | packages/web/src/agentApi.ts:700-715 | Leaving any replay can lose an event, because its loop goes on asking for pages |
| EventReplay.FailLoses | packages/web/src/App.tsx:2952-2956 | A failed replay loses an event whenever the connection has passed over one that is owed |
| EventReplay.ClearLoses | rust/crates/agent-daemon/src/runtime/events.rs:12-21 | Clearing stored events loses an event whenever one is owed |
| EventReplay.ClearRepeats | rust/crates/agent-daemon/src/runtime/events.rs:12-21 | Clearing an event that was handled before its broadcast can make the client handle it a second time |
| EventReplay.RewindLoses | packages/web/src/App.tsx:3646 | A fence written below a handled event that is still stored makes the next reconnection handle it a second time |
| EventReplay.MergeFacts | packages/web/src/App.tsx:323-341 | Merging two ordered lists gives an ordered list of the events of both |
| EventReplay.SessionEvents.constructor | packages/web/src/App.tsx:2727-2731 | Nothing is known, handled or subscribed at first |
| EventReplay.SessionEvents.HandleSessionEvent | packages/web/src/App.tsx:2727-2731 | One transition of the fence: at or below it nothing happens |
| EventReplay.SessionEvents.ApplyReplayedAndBufferedEvents | packages/web/src/App.tsx:323-341 | The two-index loop hands the merged events to the fence in order |
| EventReplay.SessionEvents.Push | packages/web/src/App.tsx:2847-2854 | A push is buffered during replay and handled otherwise |
| EventReplay.SessionEvents.Page | packages/web/src/agentApi.ts:697-716 | A page is collected; the last one ends the replay |
| EventReplay.SessionEvents.SnapshotCommitted | packages/web/src/App.tsx:2416-2418 | A snapshot's event id never lowers the fence |
| EventReplay.SessionEvents.Switched | packages/web/src/App.tsx:3646 | A switch's event id replaces the fence |
| EventReplay.SessionEvents.Subscribe | packages/web/src/App.tsx:2936-2945 | The replay starts at the fence, or without a cursor |
| EventReplay.SessionEvents.Forget | packages/web/src/App.tsx:2930-2931 | The subscription and its buffer are dropped, fence and handled events stay |
| ProviderConfiguration.EditsFoldInOrder | packages/web/src/providerConfigurationController.ts:49-119 | In every interleaving, while a session's record is open: it has one call in flight, more edits than replies, and with an echoing server the provider shown as desired has the fields of the in-order fold of all the session's edits since the record was opened, read off the steps, and the one in flight those of the edits before the last reply |
| ProviderConfiguration.EditsCommitInOrder | packages/web/src/providerConfigurationController.ts:90-119 | A reply to an open record commits the answer and closes the record exactly when no edit followed the last reply, and is then, with an echoing server, the fold of every edit since the record was opened; otherwise those edits are applied to the answer and sent. A failure is reported exactly when the desired provider is still the one sent, and otherwise that is sent |
| ProviderConfiguration.StaysOpen | packages/web/src/providerConfigurationController.ts:49-73 | An edit of an idle session opens a record, and nothing but a reply to it or the disposal closes it |
| ProviderConfiguration.CallbacksOnlyFor | packages/web/src/providerConfigurationController.ts:49-119 | The first edit sends the provider edited once; no other step but a reply to a call in flight makes a callback; disposal leaves nothing pending |
| ProviderConfiguration.ApplyTransforms | packages/web/src/providerConfigurationController.ts:100-104 | The reduce over the queued transforms is their fold in order |
| ProviderConfiguration.Controller.constructor | packages/web/src/providerConfigurationController.ts:43-47 | The controller starts idle |
| ProviderConfiguration.Controller.EditProvider | packages/web/src/providerConfigurationController.ts:49-73 | One edit transition |
| ProviderConfiguration.Controller.StartCall | packages/web/src/providerConfigurationController.ts:90-96 | The head of the loop sends the desired provider and forgets the queue |
| ProviderConfiguration.Controller.Settled | packages/web/src/providerConfigurationController.ts:97-117 | One reply or failure transition |
| ProviderConfiguration.Controller.DisposeAll | packages/web/src/providerConfigurationController.ts:83-88 | Disposal transition |
| SelectedSessionFetch.SingleFlight | packages/web/src/selectedSessionFetchState.ts:94-169 | In every reachable state at most one unsettled request serves the current session and version, fetching is true exactly when it exists, retrying implies a retained error, and settling a request of an older selection changes nothing |
| SelectedSessionFetch.RunIsServed | packages/web/src/selectedSessionFetchState.ts:128-162 | A run for the selected session has a request of the current selection to wait for, the one at hand or a new one that retries the error shown; a run for another session does nothing |
| SelectedSessionFetch.SettlementIsShown | packages/web/src/selectedSessionFetchState.ts:59-122 | The settlement of the outstanding request is what is shown; a selection shows nothing of what came before, a restart only the error |
| SelectedSessionFetch.VersionsGrow | packages/web/src/selectedSessionFetchState.ts:94-122 | Selection versions never decrease |
| SelectedSessionFetch.Coordinator.constructor | packages/web/src/selectedSessionFetchState.ts:77-85 | The coordinator starts with nothing in flight |
| SelectedSessionFetch.Coordinator.SelectSession | packages/web/src/selectedSessionFetchState.ts:94-107 | Selecting is one transition to the next version |
| SelectedSessionFetch.Coordinator.RestartFetch | packages/web/src/selectedSessionFetchState.ts:109-122 | Restarting is one transition to the next version |
| SelectedSessionFetch.Coordinator.RunFetch | packages/web/src/selectedSessionFetchState.ts:128-162 | The caller gets the request in flight, exactly when its session is selected |
| SelectedSessionFetch.Coordinator.Settled | packages/web/src/selectedSessionFetchState.ts:164-169 | One settlement transition |
| SelectedSessionFetch.Coordinator.Finished | packages/web/src/selectedSessionFetchState.ts:157-159 | Only the request's own slot is cleared |
| RefreshFence.RefreshIsAtomic | packages/web/src/selectedSessionCache.ts:83-110 | Any interleaving of updates with any number of overlapping refreshes leaves the cache that the same updates give with each refresh performed at once where it committed |
| RefreshFence.CommitsOnlyCurrent | packages/web/src/App.tsx:2376-2428 | No step drops an update; a refresh commits only onto the cache it captured, for the current session and selection version |
| RefreshFence.CommitsIffUndisturbed | packages/web/src/selectedSessionCache.ts:94-110 | A refresh that captured the cache and got its reply commits exactly when cache object and selection were left alone ever since and the reply makes a usable cache of that session; that is then the cache, by exactly one change |
| RefreshFence.CapturesAgain | packages/web/src/App.tsx:2376-2428 | A refresh begins exactly when the selected session's cache has a snapshot, which it captures; one that could not commit begins again with the cache of that moment while its selection lasts |
| RefreshFence.LoneRefreshCommits | packages/web/src/App.tsx:2376-2428 | A refresh answered before anything else happens commits |
| RefreshFence.OvertakenNeverCommits | packages/web/src/App.tsx:3635-3645 | Once a newer version has been selected or restarted, a refresh under way never commits |
| Rpc.EveryRun | packages/web/src/rpc.ts:100-328 | In every run each issued request is pending or settled and never both, at most one reconnect timer exists, and a disposed client has nothing pending, connecting or scheduled |
| Rpc.SettlesOnce | packages/web/src/rpc.ts:242-317 | A settled request stays as settled, ids are never reused, and a request that leaves the table is settled by that step |
| Rpc.RequestsEndAsTold | packages/web/src/rpc.ts:224-317 | A pending request ends exactly by its reply on the current socket, resolved if and only if that is ok, or as a transport error by its timeout or the loss of the connection; one begins exactly by a send on an open socket |
| Rpc.AlwaysComesBack | packages/web/src/rpc.ts:100-166 | Once asked to connect, a client that is not disposed always has a connection, an attempt or a timer; the timer makes an attempt, and an attempt whose socket opens is a connection |
| Rpc.DisposedIsFinal | packages/web/src/rpc.ts:168-180 | Disposal is final and no request moves afterwards |
| Rpc.StaleSocketsAreIgnored | packages/web/src/rpc.ts:113-146 | Frames, openings and closings of a replaced socket change neither the client nor any request |
| Rpc.AgentRpcClient.constructor | packages/web/src/rpc.ts:86-98 | The client starts unconnected |
| Rpc.AgentRpcClient.ConnectNow | packages/web/src/rpc.ts:100-149 | One connect transition |
| Rpc.AgentRpcClient.ReconnectNow | packages/web/src/rpc.ts:151-166 | One reconnect transition |
| Rpc.AgentRpcClient.CloseClient | packages/web/src/rpc.ts:168-180 | Disposal transition |
| Rpc.AgentRpcClient.SendRequest | packages/web/src/rpc.ts:205-222 | An open socket yields the next id, anything else is refused |
| Rpc.AgentRpcClient.HandleMessage | packages/web/src/rpc.ts:136-138 | One message transition |
| Rpc.AgentRpcClient.HandleClose | packages/web/src/rpc.ts:139-146 | One close transition |
| Rpc.AgentRpcClient.RejectAll | packages/web/src/rpc.ts:274-279 | Every pending request is rejected and the table emptied |
| Rpc.AgentRpcClient.SetReconnectTimer | packages/web/src/rpc.ts:319-327 | A second timer is never set |
| GitStatus.GitStatusIndex.constructor | packages/web/src/gitStatus.ts:53-61 | The map holds each path's last reported status, the list its paths in ascending order |
| GitStatus.GitStatusIndex.StatusFor | packages/web/src/gitStatus.ts:72-100 | The result is the strongest status over the path itself and everything below it |
| GitStatus.LowerBound | packages/web/src/gitStatus.ts:107-116 | Everything before the result is less than the value, nothing from it on is |
| GitStatus.IndexReport | packages/web/src/gitStatus.ts:54-59 | The nested loops keep the last status of every path |
| GitStatus.StrongestOf | packages/web/src/gitStatus.ts:76-85 | For the workspace root the scan of all values gives the strongest |
| GitStatus.StrongestUnique | packages/web/src/gitStatus.ts:22-28 | Ranks tell statuses apart, so the strongest status is one status |
| GitStatus.PrefixBlockEnds | packages/web/src/gitStatus.ts:86-98 | Stopping at the first path without the prefix misses none that has it |
| WorkspaceFileCache.BudgetsAlwaysHold | packages/web/src/workspaceFileCache.ts:28-102 | After every run of operations both unpinned budgets hold and no key occurs twice |
| WorkspaceFileCache.EvictMinimal | packages/web/src/workspaceFileCache.ts:87-102 | Eviction removes the fewest least-recent unpinned files that meet both budgets |
| WorkspaceFileCache.EvictsLeastRecent | packages/web/src/workspaceFileCache.ts:87-102 | Pinned files are never evicted, and an evicted file takes every less recent unpinned one with it |
| WorkspaceFileCache.KeepMembers | packages/web/src/workspaceFileCache.ts:87-102 | Which files survive the removal of the k least recent unpinned ones |
| WorkspaceFileCache.JustSetSurvives | packages/web/src/workspaceFileCache.ts:35-43 | A file just set is still cached exactly when it is pinned or fits the byte budget alone |
| FileCacheRuns.OrderedByLastUse | packages/web/src/workspaceFileCache.ts:28-58 | After every run the files stand in the order in which they were last set, got, pinned or unpinned |
| FileCacheRuns.FilesAreAsLastSet | packages/web/src/workspaceFileCache.ts:35-72 | Whatever is cached is the file last set under its key, pinned as last set, pinned or unpinned, and not removed since |
| FileCacheRuns.GoneOnlyWhenTold | packages/web/src/workspaceFileCache.ts:60-102 | A cached file leaves only when it is removed, or unpinned when a set or an unpin goes over a budget |
| FileCacheRuns.JustUsedIsLast | packages/web/src/workspaceFileCache.ts:28-50 | A file just got or pinned is the most recent one |
| WorkspaceFileCache.SessionPrefixExact | packages/web/src/workspaceFileCache.ts:64-68 | Clearing a session removes that session's files and no others, session ids being free of NUL |
| WorkspaceFileCache.CacheKeyInjective | packages/web/src/workspaceFileCache.ts:20-22 | No two files share a key |
| WorkspaceFileCache.FileCache.constructor | packages/web/src/workspaceFileCache.ts:24-26 | The cache starts empty |
| WorkspaceFileCache.FileCache.GetFile | packages/web/src/workspaceFileCache.ts:28-33 | A hit returns the file and makes it most recent; the stamped map keeps representing the recency list |
| WorkspaceFileCache.FileCache.SetFile | packages/web/src/workspaceFileCache.ts:35-43 | Setting puts the file last in the recency list and evicts |
| WorkspaceFileCache.FileCache.PinFile | packages/web/src/workspaceFileCache.ts:45-50 | Pinning moves a present file last, pinned |
| WorkspaceFileCache.FileCache.UnpinFile | packages/web/src/workspaceFileCache.ts:52-58 | Unpinning moves a present file last, unpinned, and evicts |
| WorkspaceFileCache.FileCache.InvalidateFile | packages/web/src/workspaceFileCache.ts:60-62 | The file leaves the list |
| WorkspaceFileCache.FileCache.ClearSessionFiles | packages/web/src/workspaceFileCache.ts:64-68 | The session's files leave the list |
| WorkspaceFileCache.FileCache.ClearAll | packages/web/src/workspaceFileCache.ts:70-72 | The list is empty |
| WorkspaceFileCache.FileCache.EvictUnpinned | packages/web/src/workspaceFileCache.ts:87-102 | The stamp-sorted eviction loop drops the same files as the recency list |
| WorkspaceFileCache.LeastRecentUnpinned | packages/web/src/workspaceFileCache.ts:97-99 | The victim is the unpinned entry with the smallest stamp |
| FileBrowser.DownloadWorkspaceFile | packages/web/src/fileBrowser.ts:54-107 | Against any server the download ends, and a returned file has the reported length and is the in-order concatenation of the chunks received; against an honest one it is the file byte for byte, for every size and every positive chunk size |
| FileBrowser.ConcatBytes | packages/web/src/fileBrowser.ts:139-148 | The buffer holds the chunks one after the other |
| FileBrowser.BytesToUtf8Prefix | packages/web/src/fileBrowser.ts:150-167 | The text is that of the longest admissible prefix that decodes; binary when there is none or a NUL occurs |
| FileBrowser.CutTextIsShown | packages/web/src/fileBrowser.ts:150-167 | Every cut of NUL-free valid text shows its whole code points; binary exactly for a non-empty cut that holds none |
| FileBrowser.CutFacts | packages/web/src/fileBrowser.ts:150-167 | A cut leaves at most three bytes after the last whole code point, and no longer prefix is valid |
| FileBrowser.AtMostThreeDropped | packages/web/src/fileBrowser.ts:150-167 | Whenever text is reported at most three trailing bytes were dropped |
| FileBrowser.ShownTextIsCutIff | packages/web/src/fileBrowser.ts:150-167 | Of the buffers shown as text, exactly those are cuts of NUL-free text whose dropped tail is empty or an incomplete sequence (section 4 of RFC 3629) |
| FileBrowser.BrokenOffIsIncomplete | packages/web/src/fileBrowser.ts:158-165 | Every proper beginning of an encoded code point is an incomplete sequence |
| FileBrowser.CompletionDecodes | packages/web/src/fileBrowser.ts:158-165 | Every incomplete sequence begins some encoded code point |
| FileBrowser.GarbageTailIsShown | packages/web/src/fileBrowser.ts:158-165 | A buffer that is no cut of any text and is shown as text |

## Left out
- The Rust crates: the agent state machine, the daemon and the store, apart from the store's grouping of rows into turn cards; their other answers appear as assumptions on pages, logs and rows.
- React rendering, scrolling, dialogs, themes, notices, performance logging and the real length of timers.
- Live tree-node events, and the tree's active leaf after a sync or switch; `branchFromTree` and `activeBranchEntriesForExport` are the same walk and a sort.
- In-flight frames of the event stream: a replay page is requested and received in one step, so a fence written while a page is under way is not a run of the model.
- A lagging broadcast channel of the daemon, and the removal of a deleted session's fence.
- `finalizeTurn` and `deriveModelStepPhase`: display phases and labels of model steps, computed after the grouping that is modelled.
- Queue projections, activity events and `applyEventHighWater`: they change only snapshot fields, on which no result about runs depends.
- Card summaries and message bodies: text that nothing branches on.
- Route warnings: the affected parameters are kept as a set, their order and the message texts are not modelled.
- `WorkspaceRouteHistory`, profile prefixes and legacy resume: adapters around the modelled parser and printer.
- The provider controller's target and edit label, and a commit callback that throws.
- Strings of ids: an id is only compared, so the session modules use integers for them; the route and cache-key modules use real strings.
- `Array.prototype.sort`, `TextDecoder`, `atob` and `JSON.stringify` appear by their specification.
- GitStatus.LowerBound: does not model the 32-bit shift in the midpoint, which no array a browser can hold reaches.
- TurnDetails.DetailFollowsCard: is about details whose entries have already been appended; one that runs ahead of the live events is covered by `AppliedDetailCovers` when it arrives.
- LiveTurns.LiveTurnsStayASuffix: is about branches that are kept and entries that arrive while the tip is the leaf of the loaded turns; where these fail is in `KeptIff`, `OpeningIff` and `OutOfStepMixesBranches`, except for two branches whose last turns have the same start, which may happen to agree on the loaded turns.
- TurnPages.LoadedTurnsAreASuffix: assumes that a replacing page was requested without a cursor, as the only caller does.
