/** The workspace URL grammar: typed routes, the canonical printer
    (`serializeWorkspaceRoute`) and the total parser (`parseWorkspaceRoute`)
    with its defaults, warnings, corrections and recovery URLs. */
module WorkspaceRoute {
  import opened CodeUnits
  import opened Percent

  // ---------- Typed routes ----------

  type RouteId = Str

  datatype Scope = Project(projectId: RouteId) | Host
  datatype Conversation = RootConversation | AgentConversation(sessionId: RouteId)
  datatype Focus = RootFocus | DelegationFocus(delegationId: RouteId) | AgentFocus(sessionId: RouteId)
  datatype View = Overview | Activity | Handoffs

  datatype Route =
    | ConversationRoute(scope: Scope, rootSessionId: RouteId, conversation: Conversation)
    | ExecutionRoute(scope: Scope, rootSessionId: RouteId, view: View, conversation: Conversation,
                     focus: Focus, handoff: Option<RouteId>)

  datatype ConversationIssue = Malformed | WrongRoot
  datatype Warning =
    | InvalidExecutionConversation(reason: ConversationIssue, requestedValue: Option<Str>)
    | UnsupportedQuery(parameters: set<Str>)
    | UnsupportedFragment

  datatype CorrectionReason =
    | ExplicitConversationDefault
    | ExplicitFocusDefault
    | ExplicitOverviewDefault
    | InvalidConversationFallback
    | UnsupportedQueryRemoved
    | UnsupportedFragmentRemoved
    | NoncanonicalUrl

  datatype Correction = Replace(url: Str, reasons: seq<CorrectionReason>)

  datatype RecoveryLabel = RootConversationLabel | RootOutlineLabel
  datatype Recovery = Recovery(destination: RecoveryLabel, url: Str)

  datatype Issue =
    | InvalidPath
    | InvalidPathEncoding
    | InvalidQueryEncoding
    | InvalidConversation
    | InvalidFocus
    | InvalidHandoff
    | UnsupportedOverview

  datatype ParseResult =
    | NoRoute
    | Match(route: Route, canonicalUrl: Str, warnings: seq<Warning>, correction: Option<Correction>)
    | Unavailable(issue: Issue, requestedUrl: Str, backTo: Option<Recovery>)

  /** A URL string, or a `window.location`-shaped record. */
  datatype Input = Url(url: Str) | Parts(pathname: Str, search: Str, hash: Str)

  datatype Location = Location(pathname: Str, search: Str, hash: Str, requestedUrl: Str)
  datatype PathBase = PathBase(scope: Scope, rootSessionId: RouteId, suffixOffset: nat)
  type Query = map<Str, seq<Str>>

  // ---------- Tokens ----------

  const SLASH: Unit := 0x2F
  const QUESTION: Unit := 0x3F
  const HASH: Unit := 0x23
  const AMPERSAND: Unit := 0x26
  const EQUALS: Unit := 0x3D
  const PLUS: Unit := 0x2B
  const SPACE: Unit := 0x20
  const COLON: Unit := 0x3A

  const EMPTY: Str := []
  const W: Str := Lit("w")
  const PROJECT: Str := Lit("project")
  const HOST: Str := Lit("host")
  const RUN: Str := Lit("run")
  const CONVERSATION: Str := Lit("conversation")
  const EXECUTION: Str := Lit("execution")
  const FOCUS: Str := Lit("focus")
  const HANDOFF: Str := Lit("handoff")
  const OVERVIEW: Str := Lit("overview")
  const ACTIVITY: Str := Lit("activity")
  const HANDOFFS: Str := Lit("handoffs")
  const OUTLINE: Str := Lit("outline")
  const ROOT: Str := Lit("root")
  const AGENT: Str := Lit("agent")
  const DELEGATION: Str := Lit("delegation")

  function ViewName(view: View): Str {
    match view
    case Overview => OVERVIEW
    case Activity => ACTIVITY
    case Handoffs => HANDOFFS
  }

  function ParseView(name: Str): Option<View> {
    if name == OVERVIEW then Some(Overview)
    else if name == ACTIVITY then Some(Activity)
    else if name == HANDOFFS then Some(Handoffs)
    else None
  }

  // ---------- Route ids and route validity ----------

  /** Characters removed by `String.prototype.trim`. */
  predicate IsTrimmed(u: Unit) {
    || 0x09 <= u <= 0x0D || u == 0x20 || u == 0xA0 || u == 0x1680 || 0x2000 <= u <= 0x200A
    || u == 0x2028 || u == 0x2029 || u == 0x202F || u == 0x205F || u == 0x3000 || u == 0xFEFF
  }

  /** Slashes, backslashes and control characters. */
  predicate IsInvalidIdUnit(u: Unit) {
    u == SLASH || u == 0x5C || u < 0x20 || 0x7F <= u <= 0x9F
  }

  predicate ValidId(id: Str) {
    && (exists i | 0 <= i < |id| :: !IsTrimmed(id[i]))
    && id != Lit(".") && id != Lit("..")
    && (forall i | 0 <= i < |id| :: !IsInvalidIdUnit(id[i]))
    && WellFormed(id)
  }

  predicate ValidScope(scope: Scope) {
    scope.Project? ==> ValidId(scope.projectId)
  }

  predicate ValidConversation(conversation: Conversation, rootSessionId: RouteId) {
    conversation.AgentConversation? ==> ValidId(conversation.sessionId) && conversation.sessionId != rootSessionId
  }

  predicate ValidFocus(focus: Focus, rootSessionId: RouteId) {
    match focus
    case RootFocus => true
    case DelegationFocus(id) => ValidId(id)
    case AgentFocus(id) => ValidId(id) && id != rootSessionId
  }

  /** `assertWorkspaceRoute` does not throw. */
  predicate ValidRoute(route: Route) {
    && ValidScope(route.scope)
    && ValidId(route.rootSessionId)
    && ValidConversation(route.conversation, route.rootSessionId)
    && (route.ExecutionRoute? ==>
          && ValidFocus(route.focus, route.rootSessionId)
          && (route.handoff.Some? ==> ValidId(route.handoff.value)))
  }

  predicate ValidBase(base: PathBase) {
    ValidScope(base.scope) && ValidId(base.rootSessionId)
  }

  // ---------- Printer ----------

  function ScopeSegments(scope: Scope, rootSessionId: RouteId): seq<Str>
    requires ValidScope(scope) && ValidId(rootSessionId)
  {
    match scope
    case Project(id) => [EMPTY, W, PROJECT, EncodePart(id), RUN, EncodePart(rootSessionId)]
    case Host => [EMPTY, W, HOST, RUN, EncodePart(rootSessionId)]
  }

  /** The session a route's messages go to. */
  function MessageRecipient(route: Route): RouteId {
    match route.conversation
    case RootConversation => route.rootSessionId
    case AgentConversation(id) => id
  }

  function PathSegments(route: Route): seq<Str>
    requires ValidRoute(route)
  {
    ScopeSegments(route.scope, route.rootSessionId) +
    match route
    case ConversationRoute(_, _, _) => [CONVERSATION, EncodePart(MessageRecipient(route))]
    case ExecutionRoute(_, _, view, _, _, _) => [EXECUTION, ViewName(view)]
  }

  /** Non-default query parameters, in canonical order. */
  function Parameters(route: Route): seq<(Str, Str)> {
    if route.ConversationRoute? then []
    else
      (match route.conversation
       case RootConversation => []
       case AgentConversation(id) => [(CONVERSATION, AGENT + [COLON] + id)]) +
      (match route.focus
       case RootFocus => []
       case DelegationFocus(id) => [(FOCUS, DELEGATION + [COLON] + id)]
       case AgentFocus(id) => [(FOCUS, AGENT + [COLON] + id)]) +
      (match route.handoff
       case None => []
       case Some(ref) => [(HANDOFF, ref)])
  }

  function PrintParameter(p: (Str, Str)): Str
    requires WellFormed(p.1)
  {
    p.0 + [EQUALS] + EncodePart(p.1)
  }

  function PrintParameters(ps: seq<(Str, Str)>): seq<Str>
    requires forall i | 0 <= i < |ps| :: WellFormed(ps[i].1)
  {
    seq(|ps|, i requires 0 <= i < |ps| => PrintParameter(ps[i]))
  }

  predicate IsWord(s: Str) {
    forall i | 0 <= i < |s| :: 0x61 <= s[i] <= 0x7A
  }

  lemma WordLit(s: string)
    requires forall i | 0 <= i < |s| :: 'a' <= s[i] <= 'z'
    ensures IsWord(Lit(s))
  {
  }

  lemma QueryTokens()
    ensures IsWord(FOCUS) && IsWord(HANDOFF) && IsWord(AGENT) && IsWord(DELEGATION)
    ensures AGENT != [] && DELEGATION != []
  {
    WordLit("focus");
    WordLit("handoff");
    WordLit("agent");
    WordLit("delegation");
  }

  /** A typed reference to a well-formed id is well formed. */
  lemma TypedWellFormed(kind: Str, id: Str)
    requires IsWord(kind) && WellFormed(id)
    ensures WellFormed(kind + [COLON] + id)
  {
    hide WellFormed;
    WellFormedAsciiPrefix(kind + [COLON], id);
  }

  lemma ParametersWellFormed(route: Route)
    requires ValidRoute(route)
    ensures forall i | 0 <= i < |Parameters(route)| :: WellFormed(Parameters(route)[i].1)
  {
    hide WellFormed, IsWord;
    if route.ExecutionRoute? {
      QueryTokens();
      if route.conversation.AgentConversation? {
        TypedWellFormed(AGENT, route.conversation.sessionId);
      }
      match route.focus {
        case RootFocus =>
        case DelegationFocus(id) => TypedWellFormed(DELEGATION, id);
        case AgentFocus(id) => TypedWellFormed(AGENT, id);
      }
    }
  }

  function Search(route: Route): Str
    requires ValidRoute(route)
  {
    ParametersWellFormed(route);
    var ps := Parameters(route);
    if ps == [] then [] else [QUESTION] + Join(PrintParameters(ps), AMPERSAND)
  }

  /** `serializeWorkspaceRoute`: defaults are omitted from the URL. */
  function Serialize(route: Route): Str
    requires ValidRoute(route)
  {
    Join(PathSegments(route), SLASH) + Search(route)
  }

  // ---------- Parser ----------

  function LocationOf(input: Input): Location {
    match input
    case Parts(pathname, search, hash) => Location(pathname, search, hash, pathname + search + hash)
    case Url(url) =>
      var h := IndexOf(url, HASH);
      var withoutHash := if h == -1 then url else url[..h];
      var hash := if h == -1 then [] else url[h..];
      var q := IndexOf(withoutHash, QUESTION);
      var pathname := if q == -1 then withoutHash else withoutHash[..q];
      var search := if q == -1 then [] else withoutHash[q..];
      Location(pathname, search, hash, url)
  }

  predicate OwnsWorkspacePath(pathname: Str) {
    pathname == Lit("/w") || StartsWith(pathname, Lit("/w/"))
  }

  function DecodePathSegments(raw: seq<Str>): Option<seq<Str>> {
    if exists i | 0 <= i < |raw| :: DecodeURIComponent(raw[i]).None? then None
    else Some(seq(|raw|, i requires 0 <= i < |raw| => DecodeURIComponent(raw[i]).value))
  }

  /** `segments[i]`, with None for an index past the end. */
  function At(segments: seq<Str>, i: nat): Option<Str> {
    if i < |segments| then Some(segments[i]) else None
  }

  function RouteIdOf(value: Option<Str>): (id: Option<RouteId>)
    ensures id.Some? ==> ValidId(id.value)
  {
    if value.Some? && ValidId(value.value) then value else None
  }

  function ParsePathBase(raw: seq<Str>, decoded: seq<Str>): (base: Option<PathBase>)
    requires |raw| == |decoded|
    ensures base.Some? ==> ValidBase(base.value) && base.value.suffixOffset <= |raw|
  {
    if At(raw, 0) != Some(EMPTY) || At(raw, 1) != Some(W) then None
    else
      var projectId := RouteIdOf(At(decoded, 3));
      var projectRoot := RouteIdOf(At(decoded, 5));
      var hostRoot := RouteIdOf(At(decoded, 4));
      if At(raw, 2) == Some(PROJECT) && At(raw, 4) == Some(RUN) && projectId.Some? && projectRoot.Some? then
        Some(PathBase(Project(projectId.value), projectRoot.value, 6))
      else if At(raw, 2) == Some(HOST) && At(raw, 3) == Some(RUN) && hostRoot.Some? then
        Some(PathBase(Host, hostRoot.value, 5))
      else None
  }

  /** `decodePathBase`: the base of a path some of whose other segments may not decode. */
  function DecodePathBase(raw: seq<Str>): (base: Option<PathBase>)
    ensures base.Some? ==> ValidBase(base.value)
  {
    if At(raw, 0) != Some(EMPTY) || At(raw, 1) != Some(W) then None
    else if At(raw, 2) == Some(PROJECT) && At(raw, 4) == Some(RUN) then
      var projectId := RouteIdOf(DecodeURIComponent(if |raw| > 3 then raw[3] else []));
      var root := RouteIdOf(DecodeURIComponent(if |raw| > 5 then raw[5] else []));
      if projectId.Some? && root.Some? then Some(PathBase(Project(projectId.value), root.value, 6)) else None
    else if At(raw, 2) == Some(HOST) && At(raw, 3) == Some(RUN) then
      var root := RouteIdOf(DecodeURIComponent(if |raw| > 4 then raw[4] else []));
      if root.Some? then Some(PathBase(Host, root.value, 5)) else None
    else None
  }

  function RootConversationRoute(base: PathBase): Route {
    ConversationRoute(base.scope, base.rootSessionId, RootConversation)
  }

  function RootOutlineRoute(base: PathBase): Route {
    ExecutionRoute(base.scope, base.rootSessionId, Overview, RootConversation, RootFocus, None)
  }

  function RecoveryForRootConversation(base: PathBase): Recovery
    requires ValidBase(base)
  {
    Recovery(RootConversationLabel, Serialize(RootConversationRoute(base)))
  }

  function RootOutlineRecovery(base: PathBase): Recovery
    requires ValidBase(base)
  {
    Recovery(RootOutlineLabel, Serialize(RootOutlineRoute(base)))
  }

  function RecoveryFromPartiallyDecodablePath(raw: seq<Str>): Option<Recovery> {
    match DecodePathBase(raw)
    case None => None
    case Some(base) =>
      if At(raw, base.suffixOffset) == Some(CONVERSATION) then Some(RecoveryForRootConversation(base))
      else if At(raw, base.suffixOffset) == Some(EXECUTION) then Some(RootOutlineRecovery(base))
      else None
  }

  function ReplacePlus(s: Str): Str {
    seq(|s|, i requires 0 <= i < |s| => if s[i] == PLUS then SPACE else s[i])
  }

  function DecodeQueryPart(s: Str): Option<Str> {
    DecodeURIComponent(ReplacePlus(s))
  }

  function DecodePair(pair: Str): Option<(Str, Str)> {
    var separator := IndexOf(pair, EQUALS);
    var name := DecodeQueryPart(if separator == -1 then pair else pair[..separator]);
    var value := DecodeQueryPart(if separator == -1 then [] else pair[separator + 1..]);
    if name.None? || value.None? then None else Some((name.value, value.value))
  }

  function DecodePairs(pairs: seq<Str>): Option<seq<(Str, Str)>> {
    if exists i | 0 <= i < |pairs| :: DecodePair(pairs[i]).None? then None
    else Some(seq(|pairs|, i requires 0 <= i < |pairs| => DecodePair(pairs[i]).value))
  }

  /** The values given for `name`, in order of appearance. */
  function Values(ps: seq<(Str, Str)>, name: Str): seq<Str> {
    if ps == [] then []
    else if ps[0].0 == name then [ps[0].1] + Values(ps[1..], name)
    else Values(ps[1..], name)
  }

  function Group(ps: seq<(Str, Str)>): Query {
    map name | name in (set i | 0 <= i < |ps| :: ps[i].0) :: Values(ps, name)
  }

  function RawQuery(search: Str): Str {
    if StartsWith(search, [QUESTION]) then search[1..] else search
  }

  function ParseQuery(search: Str): Option<Query> {
    var raw := RawQuery(search);
    if raw == [] then Some(map[])
    else
      match DecodePairs(Split(raw, AMPERSAND))
      case None => None
      case Some(ps) => Some(Group(ps))
  }

  /** `query.values.get(name) ?? []` */
  function Lookup(query: Query, name: Str): seq<Str> {
    if name in query then query[name] else []
  }

  datatype Typed = Typed(kind: Str, id: Str)

  function SplitTypedReference(value: Str): Option<Typed> {
    var separator := IndexOf(value, COLON);
    if separator < 1 then None else Some(Typed(value[..separator], value[separator + 1..]))
  }

  datatype ConversationReference = ToRoot | ToAgent(sessionId: RouteId) | ToWrongRoot

  function ParseConversationReference(value: Str, root: RouteId): (r: Option<ConversationReference>)
    ensures r.Some? && r.value.ToAgent? ==> ValidId(r.value.sessionId) && r.value.sessionId != root
  {
    match SplitTypedReference(value)
    case None => None
    case Some(Typed(kind, id)) =>
      if !ValidId(id) then None
      else if kind == ROOT then (if id == root then Some(ToRoot) else Some(ToWrongRoot))
      else if kind == AGENT && id != root then Some(ToAgent(id))
      else None
  }

  function ParseFocusReference(value: Str, root: RouteId): (r: Option<Focus>)
    ensures r.Some? ==> ValidFocus(r.value, root)
  {
    match SplitTypedReference(value)
    case None => None
    case Some(Typed(kind, id)) =>
      if !ValidId(id) then None
      else if kind == ROOT then (if id == root then Some(RootFocus) else None)
      else if kind == DELEGATION then Some(DelegationFocus(id))
      else if kind == AGENT && id != root then Some(AgentFocus(id))
      else None
  }

  function UnsupportedQueryWarnings(query: Query, hash: Str, supported: set<Str>): seq<Warning> {
    var parameters := query.Keys - supported;
    (if parameters != {} then [UnsupportedQuery(parameters)] else []) +
    (if hash != [] then [UnsupportedFragment] else [])
  }

  function WarningReasons(warnings: seq<Warning>): seq<CorrectionReason> {
    if warnings == [] then []
    else
      (match warnings[0]
       case UnsupportedQuery(_) => [UnsupportedQueryRemoved]
       case UnsupportedFragment => [UnsupportedFragmentRemoved]
       case InvalidExecutionConversation(_, _) => []) + WarningReasons(warnings[1..])
  }

  /** `unique`: keep first occurrences. */
  function Unique(reasons: seq<CorrectionReason>): seq<CorrectionReason> {
    if reasons == [] then []
    else
      var init := Unique(reasons[..|reasons| - 1]);
      var last := reasons[|reasons| - 1];
      if last in init then init else init + [last]
  }

  function MatchedRoute(route: Route, location: Location, warnings: seq<Warning>,
                        reasons: seq<CorrectionReason>): ParseResult
    requires ValidRoute(route)
  {
    var canonicalUrl := Serialize(route);
    var all := reasons + WarningReasons(warnings);
    var correctionReasons :=
      if location.requestedUrl != canonicalUrl && all == [] then [NoncanonicalUrl] else all;
    Match(route, canonicalUrl, warnings,
          if location.requestedUrl == canonicalUrl then None
          else Some(Replace(canonicalUrl, Unique(correctionReasons))))
  }

  const SUPPORTED_QUERY_PARAMETERS: set<Str> := {CONVERSATION, FOCUS, HANDOFF, OVERVIEW}

  datatype ConversationChoice =
    ConversationChoice(conversation: Conversation, warnings: seq<Warning>, reasons: seq<CorrectionReason>)

  /** The effective conversation: invalid references fall back to the root with a persistent warning. */
  function ChooseConversation(values: seq<Str>, root: RouteId): (c: ConversationChoice)
    ensures ValidConversation(c.conversation, root)
  {
    if values == [] then ConversationChoice(RootConversation, [], [])
    else
      var requested := if |values| == 1 then Some(values[0]) else None;
      var parsed := if |values| == 1 then ParseConversationReference(values[0], root) else None;
      match parsed
      case None =>
        ConversationChoice(RootConversation, [InvalidExecutionConversation(Malformed, requested)],
                           [InvalidConversationFallback])
      case Some(ToWrongRoot) =>
        ConversationChoice(RootConversation, [InvalidExecutionConversation(WrongRoot, requested)],
                           [InvalidConversationFallback])
      case Some(ToRoot) => ConversationChoice(RootConversation, [], [ExplicitConversationDefault])
      case Some(ToAgent(id)) => ConversationChoice(AgentConversation(id), [], [])
  }

  function ParseExecutionRoute(base: PathBase, view: View, query: Query, location: Location): ParseResult
    requires ValidBase(base)
  {
    var root := base.rootSessionId;
    var backTo := Some(RootOutlineRecovery(base));
    var choice := ChooseConversation(Lookup(query, CONVERSATION), root);
    var warnings := choice.warnings + UnsupportedQueryWarnings(query, location.hash, SUPPORTED_QUERY_PARAMETERS);
    var focusValues := Lookup(query, FOCUS);
    var focus :=
      if focusValues == [] then Some(RootFocus)
      else if |focusValues| != 1 then None
      else ParseFocusReference(focusValues[0], root);
    if focus.None? then Unavailable(InvalidFocus, location.requestedUrl, backTo)
    else
      var focusReasons := if focusValues != [] && focus.value.RootFocus? then [ExplicitFocusDefault] else [];
      var handoffValues := Lookup(query, HANDOFF);
      var handoff := if |handoffValues| == 1 then RouteIdOf(Some(handoffValues[0])) else None;
      if |handoffValues| > 1 || (|handoffValues| == 1 && handoff.None?) then
        Unavailable(InvalidHandoff, location.requestedUrl, backTo)
      else
        var overviewValues := Lookup(query, OVERVIEW);
        if overviewValues != [] && !(overviewValues == [OUTLINE] && view == Overview) then
          Unavailable(UnsupportedOverview, location.requestedUrl, backTo)
        else
          var overviewReasons := if overviewValues != [] then [ExplicitOverviewDefault] else [];
          MatchedRoute(ExecutionRoute(base.scope, root, view, choice.conversation, focus.value, handoff),
                       location, warnings, choice.reasons + focusReasons + overviewReasons)
  }

  function ParseConversationRoute(base: PathBase, decoded: seq<Str>, length: nat, location: Location): ParseResult
    requires ValidBase(base)
  {
    var backTo := Some(RecoveryForRootConversation(base));
    if length != 2 then Unavailable(InvalidConversation, location.requestedUrl, backTo)
    else
      var id := RouteIdOf(At(decoded, base.suffixOffset + 1));
      if id.None? then Unavailable(InvalidConversation, location.requestedUrl, backTo)
      else
        match ParseQuery(location.search)
        case None => Unavailable(InvalidQueryEncoding, location.requestedUrl, backTo)
        case Some(query) =>
          var conversation :=
            if id.value == base.rootSessionId then RootConversation else AgentConversation(id.value);
          MatchedRoute(ConversationRoute(base.scope, base.rootSessionId, conversation), location,
                       UnsupportedQueryWarnings(query, location.hash, {}), [])
  }

  function ParseDestination(base: PathBase, raw: seq<Str>, decoded: seq<Str>, location: Location): ParseResult
    requires ValidBase(base) && base.suffixOffset <= |raw|
  {
    var suffix := raw[base.suffixOffset..];
    if At(suffix, 0) == Some(CONVERSATION) then ParseConversationRoute(base, decoded, |suffix|, location)
    else if At(suffix, 0) != Some(EXECUTION) || |suffix| != 2 || ParseView(suffix[1]).None? then
      Unavailable(InvalidPath, location.requestedUrl, Some(RecoveryForRootConversation(base)))
    else
      match ParseQuery(location.search)
      case None => Unavailable(InvalidQueryEncoding, location.requestedUrl, Some(RootOutlineRecovery(base)))
      case Some(query) => ParseExecutionRoute(base, ParseView(suffix[1]).value, query, location)
  }

  function ParseLocation(location: Location): ParseResult {
    if !OwnsWorkspacePath(location.pathname) then NoRoute
    else
      var raw := Split(location.pathname, SLASH);
      match DecodePathSegments(raw)
      case None =>
        Unavailable(InvalidPathEncoding, location.requestedUrl, RecoveryFromPartiallyDecodablePath(raw))
      case Some(decoded) =>
        match ParsePathBase(raw, decoded)
        case None => Unavailable(InvalidPath, location.requestedUrl, None)
        case Some(base) => ParseDestination(base, raw, decoded, location)
  }

  /** `parseWorkspaceRoute` */
  function Parse(input: Input): ParseResult {
    ParseLocation(LocationOf(input))
  }

  // ---------- The parser's loops ----------

  /** `decodePathSegments`: stops at the first segment that does not decode. */
  method DecodeSegmentsLoop(segments: seq<Str>) returns (decoded: Option<seq<Str>>)
    ensures decoded == DecodePathSegments(segments)
  {
    var result: seq<Str> := [];
    for i := 0 to |segments|
      invariant |result| == i
      invariant forall k | 0 <= k < i :: DecodeURIComponent(segments[k]) == Some(result[k])
    {
      match DecodeURIComponent(segments[i]) {
        case None => return None;
        case Some(segment) => result := result + [segment];
      }
    }
    assert DecodePathSegments(segments).value == result;
    return Some(result);
  }

  lemma {:induction false} ValuesSnoc(ps: seq<(Str, Str)>, p: (Str, Str), name: Str)
    ensures Values(ps + [p], name) == Values(ps, name) + if p.0 == name then [p.1] else []
  {
    if ps == [] {
      assert ps + [p] == [p];
    } else {
      ValuesSnoc(ps[1..], p, name);
      assert (ps + [p])[1..] == ps[1..] + [p];
    }
  }

  lemma {:induction false} ValuesAbsent(ps: seq<(Str, Str)>, name: Str)
    requires forall i | 0 <= i < |ps| :: ps[i].0 != name
    ensures Values(ps, name) == []
  {
    if ps != [] {
      ValuesAbsent(ps[1..], name);
    }
  }

  lemma LookupGroup(ps: seq<(Str, Str)>, name: Str)
    ensures Lookup(Group(ps), name) == Values(ps, name)
  {
    if name !in Group(ps) {
      ValuesAbsent(ps, name);
    }
  }

  lemma GroupSnoc(ps: seq<(Str, Str)>, p: (Str, Str))
    ensures Group(ps + [p]) == Group(ps)[p.0 := Lookup(Group(ps), p.0) + [p.1]]
  {
    var qs := ps + [p];
    LookupGroup(ps, p.0);
    forall name
      ensures name in Group(qs) <==> name in Group(ps) || name == p.0
    {
      if name in Group(ps) {
        var i :| 0 <= i < |ps| && ps[i].0 == name;
        assert qs[i].0 == name;
      }
      assert qs[|ps|] == p;
    }
    forall name | name in Group(qs)
      ensures Group(qs)[name] == Group(ps)[p.0 := Lookup(Group(ps), p.0) + [p.1]][name]
    {
      ValuesSnoc(ps, p, name);
    }
  }

  /** `parseQuery`: accumulate decoded pairs into a name-to-values map. */
  method ParseQueryLoop(search: Str) returns (query: Option<Query>)
    ensures query == ParseQuery(search)
  {
    var raw := if StartsWith(search, [QUESTION]) then search[1..] else search;
    if raw == [] { return Some(map[]); }
    query := GroupPairsLoop(Split(raw, AMPERSAND));
  }

  lemma PairsDecoded(pairs: seq<Str>, done: seq<(Str, Str)>)
    requires |done| == |pairs| && forall k | 0 <= k < |pairs| :: DecodePair(pairs[k]) == Some(done[k])
    ensures DecodePairs(pairs) == Some(done)
  {
    hide DecodePair;
    assert DecodePairs(pairs).Some?;
    assert DecodePairs(pairs).value == done;
  }

  lemma PairMalformed(pairs: seq<Str>, i: nat)
    requires i < |pairs| && DecodePair(pairs[i]).None?
    ensures DecodePairs(pairs).None?
  {
    hide DecodePair;
  }

  lemma GroupNothing()
    ensures Group([]) == map[]
  {
  }

  method GroupPairsLoop(pairs: seq<Str>) returns (query: Option<Query>)
    ensures query == match DecodePairs(pairs) case None => None case Some(ps) => Some(Group(ps))
  {
    var values: Query := map[];
    ghost var done: seq<(Str, Str)> := [];
    GroupNothing();
    hide Group, Lookup, DecodePair, DecodePairs;
    for i := 0 to |pairs|
      invariant |done| == i
      invariant forall k | 0 <= k < i :: DecodePair(pairs[k]) == Some(done[k])
      invariant values == Group(done)
    {
      var decoded := DecodePair(pairs[i]);
      if decoded.None? {
        PairMalformed(pairs, i);
        return None;
      }
      var pair := decoded.value;
      GroupSnoc(done, pair);
      values := values[pair.0 := Lookup(values, pair.0) + [pair.1]];
      done := done + [pair];
    }
    PairsDecoded(pairs, done);
    return Some(values);
  }
}
