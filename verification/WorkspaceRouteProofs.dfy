/** The route grammar's laws: printing then parsing is the identity on valid
    routes, printing is injective, and every URL the parser hands back
    (canonical, correction or recovery) parses cleanly to the route it names. */
module WorkspaceRouteProofs {
  import opened CodeUnits
  import opened Percent
  import opened WorkspaceRoute

  predicate Plain(s: Str) {
    forall i | 0 <= i < |s| :: IsEncoded(s[i])
  }

  lemma PlainAvoids(s: Str)
    requires Plain(s)
    ensures SLASH !in s && QUESTION !in s && HASH !in s && AMPERSAND !in s && EQUALS !in s && PLUS !in s
  {
  }

  lemma PathTokens()
    ensures IsWord(W) && IsWord(PROJECT) && IsWord(HOST) && IsWord(RUN)
    ensures IsWord(CONVERSATION) && IsWord(EXECUTION)
  {
    WordLit("w");
    WordLit("project");
    WordLit("host");
    WordLit("run");
    WordLit("conversation");
    WordLit("execution");
  }

  lemma ViewTokens()
    ensures IsWord(OVERVIEW) && IsWord(ACTIVITY) && IsWord(HANDOFFS)
  {
    WordLit("overview");
    WordLit("activity");
    WordLit("handoffs");
  }

  lemma TokensDistinct()
    ensures PROJECT != HOST && CONVERSATION != EXECUTION
    ensures OVERVIEW != ACTIVITY && OVERVIEW != HANDOFFS && ACTIVITY != HANDOFFS
    ensures CONVERSATION != FOCUS && CONVERSATION != HANDOFF && CONVERSATION != OVERVIEW
    ensures FOCUS != HANDOFF && FOCUS != OVERVIEW && HANDOFF != OVERVIEW
    ensures AGENT != ROOT && DELEGATION != ROOT && DELEGATION != AGENT
  {
    assert PROJECT[0] != HOST[0];
    assert OVERVIEW[0] != ACTIVITY[0] && OVERVIEW[0] != HANDOFFS[0] && ACTIVITY[0] != HANDOFFS[0];
  }

  lemma WordPlain(s: Str)
    requires IsWord(s)
    ensures Plain(s) && PERCENT !in s && COLON !in s && PLUS !in s && EQUALS !in s && HASH !in s && AMPERSAND !in s
    ensures DecodeURIComponent(s) == Some(s)
  {
    DecodePlain(s);
  }

  lemma EncodedPlain(s: Str)
    requires WellFormed(s)
    ensures Plain(EncodePart(s))
    ensures DecodeURIComponent(EncodePart(s)) == Some(s)
  {
    EncodePartAlphabet(s);
    DecodeEncodePart(s);
  }

  // ---------- Path ----------

  function DecodedScope(scope: Scope, root: RouteId): seq<Str> {
    match scope
    case Project(id) => [EMPTY, W, PROJECT, id, RUN, root]
    case Host => [EMPTY, W, HOST, RUN, root]
  }

  /** What each path segment decodes to. */
  function DecodedSegments(route: Route): seq<Str>
    requires ValidRoute(route)
  {
    DecodedScope(route.scope, route.rootSessionId) +
    match route
    case ConversationRoute(_, _, _) => [CONVERSATION, MessageRecipient(route)]
    case ExecutionRoute(_, _, view, _, _, _) => [EXECUTION, ViewName(view)]
  }

  predicate SegmentOk(raw: Str, decoded: Str) {
    Plain(raw) && DecodeURIComponent(raw) == Some(decoded)
  }

  lemma TokenSegments()
    ensures SegmentOk(EMPTY, EMPTY) && SegmentOk(W, W) && SegmentOk(PROJECT, PROJECT) && SegmentOk(HOST, HOST)
    ensures SegmentOk(RUN, RUN) && SegmentOk(CONVERSATION, CONVERSATION) && SegmentOk(EXECUTION, EXECUTION)
  {
    PathTokens();
    WordPlain(EMPTY);
    WordPlain(W);
    WordPlain(PROJECT);
    WordPlain(HOST);
    WordPlain(RUN);
    WordPlain(CONVERSATION);
    WordPlain(EXECUTION);
  }

  lemma ViewSegment(view: View)
    ensures SegmentOk(ViewName(view), ViewName(view))
  {
    ViewTokens();
    WordPlain(ViewName(view));
  }

  lemma EncodedSegment(id: Str)
    requires WellFormed(id)
    ensures SegmentOk(EncodePart(id), id)
  {
    EncodedPlain(id);
  }

  predicate SegmentsOk(raw: seq<Str>, decoded: seq<Str>) {
    |raw| == |decoded| && forall i | 0 <= i < |raw| :: SegmentOk(raw[i], decoded[i])
  }

  lemma SegmentsConcat(a: seq<Str>, da: seq<Str>, b: seq<Str>, db: seq<Str>)
    requires SegmentsOk(a, da) && SegmentsOk(b, db)
    ensures SegmentsOk(a + b, da + db)
  {
  }

  lemma SegmentPair(a: Str, da: Str, b: Str, db: Str)
    requires SegmentOk(a, da) && SegmentOk(b, db)
    ensures SegmentsOk([a, b], [da, db])
  {
  }

  lemma ProjectSegments(e: Str, w: Str, project: Str, run: Str, encId: Str, id: Str, enc: Str, root: Str)
    requires SegmentOk(e, e) && SegmentOk(w, w) && SegmentOk(project, project) && SegmentOk(run, run)
    requires SegmentOk(encId, id) && SegmentOk(enc, root)
    ensures SegmentsOk([e, w, project, encId, run, enc], [e, w, project, id, run, root])
  {
  }

  lemma HostSegments(e: Str, w: Str, host: Str, run: Str, enc: Str, root: Str)
    requires SegmentOk(e, e) && SegmentOk(w, w) && SegmentOk(host, host) && SegmentOk(run, run)
    requires SegmentOk(enc, root)
    ensures SegmentsOk([e, w, host, run, enc], [e, w, host, run, root])
  {
  }

  lemma ScopeSegmentFacts(scope: Scope, root: RouteId)
    requires ValidScope(scope) && ValidId(root)
    ensures SegmentsOk(ScopeSegments(scope, root), DecodedScope(scope, root))
  {
    TokenSegments();
    EncodedSegment(root);
    match scope {
      case Project(id) =>
        EncodedSegment(id);
        ProjectSegments(EMPTY, W, PROJECT, RUN, EncodePart(id), id, EncodePart(root), root);
      case Host =>
        HostSegments(EMPTY, W, HOST, RUN, EncodePart(root), root);
    }
  }

  lemma SegmentFacts(route: Route)
    requires ValidRoute(route)
    ensures SegmentsOk(PathSegments(route), DecodedSegments(route))
  {
    var scope := ScopeSegments(route.scope, route.rootSessionId);
    var decodedScope := DecodedScope(route.scope, route.rootSessionId);
    ScopeSegmentFacts(route.scope, route.rootSessionId);
    TokenSegments();
    if route.ConversationRoute? {
      var id := MessageRecipient(route);
      EncodedSegment(id);
      SegmentPair(CONVERSATION, CONVERSATION, EncodePart(id), id);
      SegmentsConcat(scope, decodedScope, [CONVERSATION, EncodePart(id)], [CONVERSATION, id]);
    } else {
      var view := ViewName(route.view);
      ViewSegment(route.view);
      SegmentPair(EXECUTION, EXECUTION, view, view);
      SegmentsConcat(scope, decodedScope, [EXECUTION, view], [EXECUTION, view]);
    }
  }

  function Path(route: Route): Str
    requires ValidRoute(route)
  {
    Join(PathSegments(route), SLASH)
  }

  lemma SegmentsAvoid(route: Route)
    requires ValidRoute(route)
    ensures forall p | p in PathSegments(route) :: SLASH !in p && QUESTION !in p && HASH !in p
  {
    SegmentFacts(route);
    hide PathSegments;
    forall p | p in PathSegments(route)
      ensures SLASH !in p && QUESTION !in p && HASH !in p
    {
      PlainAvoids(p);
    }
  }

  lemma PathSplits(route: Route)
    requires ValidRoute(route)
    ensures Split(Path(route), SLASH) == PathSegments(route)
  {
    SegmentsAvoid(route);
    SegmentFacts(route);
    assert PathSegments(route) != [];
    hide PathSegments, Split, Join;
    SplitJoin(PathSegments(route), SLASH);
  }

  lemma PathAvoids(route: Route)
    requires ValidRoute(route)
    ensures QUESTION !in Path(route) && HASH !in Path(route)
  {
    SegmentsAvoid(route);
    hide PathSegments, Join;
    JoinAvoids(PathSegments(route), SLASH, QUESTION);
    JoinAvoids(PathSegments(route), SLASH, HASH);
  }

  lemma PathDecodes(route: Route)
    requires ValidRoute(route)
    ensures DecodePathSegments(PathSegments(route)) == Some(DecodedSegments(route))
  {
    SegmentFacts(route);
    hide PathSegments, DecodedSegments;
    assert DecodePathSegments(PathSegments(route)).value == DecodedSegments(route);
  }

  lemma PathFacts(route: Route)
    requires ValidRoute(route)
    ensures Split(Path(route), SLASH) == PathSegments(route)
    ensures QUESTION !in Path(route) && HASH !in Path(route)
    ensures DecodePathSegments(PathSegments(route)) == Some(DecodedSegments(route))
  {
    hide Split, Path, PathSegments, DecodedSegments, DecodePathSegments;
    PathSplits(route);
    PathAvoids(route);
    PathDecodes(route);
  }

  lemma PathOwned(route: Route)
    requires ValidRoute(route)
    ensures OwnsWorkspacePath(Path(route))
  {
    var segments := PathSegments(route);
    assert segments[0] == EMPTY && segments[1] == W;
    assert Join(segments, SLASH) == EMPTY + [SLASH] + Join(segments[1..], SLASH);
    assert Join(segments[1..], SLASH) == W + [SLASH] + Join(segments[1..][1..], SLASH);
    assert Path(route)[..3] == Lit("/w/");
  }

  function BaseOf(route: Route): PathBase {
    PathBase(route.scope, route.rootSessionId, if route.scope.Project? then 6 else 5)
  }

  lemma PathBaseRoundTrip(route: Route)
    requires ValidRoute(route)
    ensures |PathSegments(route)| == |DecodedSegments(route)| == BaseOf(route).suffixOffset + 2
    ensures ParsePathBase(PathSegments(route), DecodedSegments(route)) == Some(BaseOf(route))
  {
    hide ValidId, EncodePart, ViewName, Lit;
    TokensDistinct();
  }

  // ---------- Query ----------

  lemma ParameterFacts(p: (Str, Str))
    requires IsWord(p.0) && WellFormed(p.1)
    ensures HASH !in PrintParameter(p) && AMPERSAND !in PrintParameter(p) && PrintParameter(p) != []
    ensures DecodePair(PrintParameter(p)) == Some(p)
  {
    var printed := PrintParameter(p);
    var value := EncodePart(p.1);
    WordPlain(p.0);
    EncodedPlain(p.1);
    PlainAvoids(value);
    FirstIndex(p.0, EQUALS, value);
    assert printed[..|p.0|] == p.0;
    assert printed[|p.0| + 1..] == value;
    assert ReplacePlus(p.0) == p.0;
    assert ReplacePlus(value) == value;
  }

  lemma ParameterNames(route: Route)
    requires ValidRoute(route)
    ensures forall i | 0 <= i < |Parameters(route)| ::
              IsWord(Parameters(route)[i].0) && Parameters(route)[i].0 in SUPPORTED_QUERY_PARAMETERS
  {
    PathTokens();
    QueryTokens();
  }

  lemma PrintedFacts(ps: seq<(Str, Str)>)
    requires forall i | 0 <= i < |ps| :: IsWord(ps[i].0) && WellFormed(ps[i].1)
    ensures forall p <- PrintParameters(ps) :: HASH !in p && AMPERSAND !in p && p != []
    ensures DecodePairs(PrintParameters(ps)) == Some(ps)
  {
    hide IsWord, WellFormed, PrintParameter, DecodePair;
    var printed := PrintParameters(ps);
    forall i | 0 <= i < |ps|
      ensures HASH !in printed[i] && AMPERSAND !in printed[i] && printed[i] != []
      ensures DecodePair(printed[i]) == Some(ps[i])
    {
      ParameterFacts(ps[i]);
    }
    assert DecodePairs(printed).value == ps;
  }

  lemma JoinNonempty(parts: seq<Str>, c: Unit)
    requires parts != [] && parts[0] != []
    ensures Join(parts, c) != []
  {
  }

  lemma RawQueryOf(joined: Str)
    ensures RawQuery([QUESTION] + joined) == joined
  {
  }

  lemma QueryRoundTrip(route: Route)
    requires ValidRoute(route)
    ensures HASH !in Search(route)
    ensures ParseQuery(Search(route)) == Some(Group(Parameters(route)))
  {
    var ps := Parameters(route);
    ParametersWellFormed(route);
    ParameterNames(route);
    assert Group([]) == map[];
    hide IsWord, WellFormed, Parameters, Group, Split, Join, DecodePairs, PrintParameters, RawQuery, ValidRoute;
    if ps == [] {
      EmptyRawQuery();
    } else {
      var printed := PrintParameters(ps);
      PrintedFacts(ps);
      PrintedLength(ps);
      SplitJoin(printed, AMPERSAND);
      JoinAvoids(printed, AMPERSAND, HASH);
      JoinNonempty(printed, AMPERSAND);
      RawQueryOf(Join(printed, AMPERSAND));
    }
  }

  lemma EmptyRawQuery()
    ensures RawQuery([]) == []
  {
  }

  lemma PrintedLength(ps: seq<(Str, Str)>)
    requires forall i | 0 <= i < |ps| :: WellFormed(ps[i].1)
    ensures |PrintParameters(ps)| == |ps|
  {
  }

  lemma {:induction false} ValuesConcat(a: seq<(Str, Str)>, b: seq<(Str, Str)>, name: Str)
    ensures Values(a + b, name) == Values(a, name) + Values(b, name)
  {
    if a == [] {
      assert a + b == b;
    } else {
      ValuesConcat(a[1..], b, name);
      assert (a + b)[0] == a[0];
      assert (a + b)[1..] == a[1..] + b;
    }
  }

  function ConversationValues(c: Conversation): seq<Str> {
    match c
    case RootConversation => []
    case AgentConversation(id) => [AGENT + [COLON] + id]
  }

  function FocusValues(f: Focus): seq<Str> {
    match f
    case RootFocus => []
    case DelegationFocus(id) => [DELEGATION + [COLON] + id]
    case AgentFocus(id) => [AGENT + [COLON] + id]
  }

  function HandoffValues(h: Option<RouteId>): seq<Str> {
    if h.Some? then [h.value] else []
  }

  function Named(name: Str, values: seq<Str>): seq<(Str, Str)>
    requires |values| <= 1
  {
    if values == [] then [] else [(name, values[0])]
  }

  lemma NamedValues(name: Str, values: seq<Str>, other: Str)
    requires |values| <= 1
    ensures Values(Named(name, values), other) == if other == name then values else []
  {
  }

  lemma ParametersNamed(route: Route)
    requires route.ExecutionRoute?
    ensures Parameters(route) ==
            Named(CONVERSATION, ConversationValues(route.conversation)) +
            Named(FOCUS, FocusValues(route.focus)) +
            Named(HANDOFF, HandoffValues(route.handoff))
  {
  }

  lemma LookupNamed(route: Route, name: Str)
    requires ValidRoute(route) && route.ExecutionRoute?
    ensures Lookup(Group(Parameters(route)), name) ==
              (if name == CONVERSATION then ConversationValues(route.conversation) else []) +
              (if name == FOCUS then FocusValues(route.focus) else []) +
              (if name == HANDOFF then HandoffValues(route.handoff) else [])
  {
    hide Values, Group, Lookup, Parameters;
    var c := Named(CONVERSATION, ConversationValues(route.conversation));
    var f := Named(FOCUS, FocusValues(route.focus));
    var h := Named(HANDOFF, HandoffValues(route.handoff));
    ParametersNamed(route);
    LookupGroup(Parameters(route), name);
    ValuesConcat(c + f, h, name);
    ValuesConcat(c, f, name);
    NamedAll(route, name);
  }

  lemma LookupParameters(route: Route)
    requires ValidRoute(route) && route.ExecutionRoute?
    ensures var query := Group(Parameters(route));
            && Lookup(query, CONVERSATION) == ConversationValues(route.conversation)
            && Lookup(query, FOCUS) == FocusValues(route.focus)
            && Lookup(query, HANDOFF) == HandoffValues(route.handoff)
            && Lookup(query, OVERVIEW) == []
            && query.Keys <= SUPPORTED_QUERY_PARAMETERS
  {
    TokensDistinct();
    ParameterNames(route);
    assert Group(Parameters(route)).Keys <= SUPPORTED_QUERY_PARAMETERS;
    hide *;
    LookupNamed(route, CONVERSATION);
    LookupNamed(route, FOCUS);
    LookupNamed(route, HANDOFF);
    LookupNamed(route, OVERVIEW);
  }

  lemma NamedAll(route: Route, name: Str)
    requires ValidRoute(route) && route.ExecutionRoute?
    ensures Values(Named(CONVERSATION, ConversationValues(route.conversation)), name) ==
              if name == CONVERSATION then ConversationValues(route.conversation) else []
    ensures Values(Named(FOCUS, FocusValues(route.focus)), name) ==
              if name == FOCUS then FocusValues(route.focus) else []
    ensures Values(Named(HANDOFF, HandoffValues(route.handoff)), name) ==
              if name == HANDOFF then HandoffValues(route.handoff) else []
  {
    NamedValues(CONVERSATION, ConversationValues(route.conversation), name);
    NamedValues(FOCUS, FocusValues(route.focus), name);
    NamedValues(HANDOFF, HandoffValues(route.handoff), name);
  }

  lemma TypedReference(kind: Str, id: Str)
    requires IsWord(kind) && kind != []
    ensures SplitTypedReference(kind + [COLON] + id) == Some(Typed(kind, id))
  {
    WordPlain(kind);
    FirstIndex(kind, COLON, id);
    var value := kind + [COLON] + id;
    assert value[..|kind|] == kind;
    assert value[|kind| + 1..] == id;
  }

  lemma AgentReferenceParses(id: RouteId, root: RouteId)
    requires ValidId(id) && id != root
    ensures ParseConversationReference(AGENT + [COLON] + id, root) == Some(ToAgent(id))
  {
    QueryTokens();
    TokensDistinct();
    TypedReference(AGENT, id);
    hide SplitTypedReference, ValidId;
  }

  lemma ConversationRoundTrips(route: Route)
    requires ValidRoute(route) && route.ExecutionRoute?
    ensures ChooseConversation(ConversationValues(route.conversation), route.rootSessionId) ==
            ConversationChoice(route.conversation, [], [])
  {
    if route.conversation.AgentConversation? {
      AgentReferenceParses(route.conversation.sessionId, route.rootSessionId);
    }
    hide ParseConversationReference, ValidId;
  }

  lemma FocusRoundTrips(route: Route)
    requires ValidRoute(route) && route.ExecutionRoute? && !route.focus.RootFocus?
    ensures ParseFocusReference(FocusValues(route.focus)[0], route.rootSessionId) == Some(route.focus)
  {
    QueryTokens();
    TokensDistinct();
    match route.focus {
      case DelegationFocus(id) => TypedReference(DELEGATION, id);
      case AgentFocus(id) => TypedReference(AGENT, id);
    }
    hide SplitTypedReference;
  }

  lemma ReferencesRoundTrip(route: Route)
    requires ValidRoute(route) && route.ExecutionRoute?
    ensures ChooseConversation(ConversationValues(route.conversation), route.rootSessionId) ==
            ConversationChoice(route.conversation, [], [])
    ensures !route.focus.RootFocus? ==>
              ParseFocusReference(FocusValues(route.focus)[0], route.rootSessionId) == Some(route.focus)
  {
    hide ChooseConversation, ParseFocusReference, ValidRoute;
    ConversationRoundTrips(route);
    if !route.focus.RootFocus? {
      FocusRoundTrips(route);
    }
  }

  // ---------- The round trip ----------

  /** A clean parse: the route itself, no warnings, nothing to correct. */
  function Clean(route: Route): ParseResult
    requires ValidRoute(route)
  {
    Match(route, Serialize(route), [], None)
  }

  lemma SplitUrl(path: Str, search: Str)
    requires HASH !in path && HASH !in search && QUESTION !in path
    requires search == [] || search[0] == QUESTION
    ensures LocationOf(Url(path + search)) == Location(path, search, [], path + search)
  {
    var url := path + search;
    assert HASH !in url;
    if search == [] {
      assert url == path;
    } else {
      assert url == path + [QUESTION] + search[1..];
      FirstIndex(path, QUESTION, search[1..]);
    }
  }

  lemma PartsLocation(path: Str, search: Str)
    ensures LocationOf(Parts(path, search, [])) == Location(path, search, [], path + search)
  {
    assert path + search + [] == path + search;
  }

  lemma SerializeParts(route: Route)
    requires ValidRoute(route)
    ensures Serialize(route) == Path(route) + Search(route)
  {
  }

  lemma SearchShape(route: Route)
    requires ValidRoute(route)
    ensures Search(route) == [] || Search(route)[0] == QUESTION
  {
  }

  lemma LocationRoundTrip(route: Route)
    requires ValidRoute(route)
    ensures LocationOf(Url(Serialize(route))) == Location(Path(route), Search(route), [], Serialize(route))
    ensures LocationOf(Parts(Path(route), Search(route), [])) == LocationOf(Url(Serialize(route)))
  {
    SerializeParts(route);
    PathFacts(route);
    QueryRoundTrip(route);
    SearchShape(route);
    PartsLocation(Path(route), Search(route));
    hide *;
    SplitUrl(Path(route), Search(route));
  }

  lemma MatchedClean(route: Route, location: Location)
    requires ValidRoute(route) && location.requestedUrl == Serialize(route)
    ensures MatchedRoute(route, location, [], []) == Clean(route)
  {
  }

  lemma ExecutionCase(base: PathBase, view: View, query: Query, location: Location,
                      conversation: Conversation, focus: Focus, handoff: Option<RouteId>)
    requires ValidBase(base) && ValidFocus(focus, base.rootSessionId)
    requires ValidConversation(conversation, base.rootSessionId) && (handoff.Some? ==> ValidId(handoff.value))
    requires ChooseConversation(Lookup(query, CONVERSATION), base.rootSessionId) ==
             ConversationChoice(conversation, [], [])
    requires Lookup(query, FOCUS) == FocusValues(focus)
    requires !focus.RootFocus? ==> ParseFocusReference(FocusValues(focus)[0], base.rootSessionId) == Some(focus)
    requires Lookup(query, HANDOFF) == HandoffValues(handoff)
    requires Lookup(query, OVERVIEW) == []
    requires UnsupportedQueryWarnings(query, location.hash, SUPPORTED_QUERY_PARAMETERS) == []
    ensures ParseExecutionRoute(base, view, query, location) ==
            MatchedRoute(ExecutionRoute(base.scope, base.rootSessionId, view, conversation, focus, handoff),
                         location, [], [])
  {
    hide MatchedRoute, ParseFocusReference, ChooseConversation, Lookup, ValidId, UnsupportedQueryWarnings;
    hide RootOutlineRecovery;
    var warnings: seq<Warning> := [];
    var reasons: seq<CorrectionReason> := [];
    assert warnings + warnings == warnings;
    assert reasons + reasons + reasons == reasons;
  }

  lemma ExecutionRoundTrip(route: Route)
    requires ValidRoute(route) && route.ExecutionRoute?
    ensures ParseExecutionRoute(BaseOf(route), route.view, Group(Parameters(route)),
                                Location(Path(route), Search(route), [], Serialize(route))) == Clean(route)
  {
    var location := Location(Path(route), Search(route), [], Serialize(route));
    var query := Group(Parameters(route));
    LookupParameters(route);
    ReferencesRoundTrip(route);
    NoWarnings(query);
    MatchedClean(route, location);
    hide Group, Lookup, Parameters, ParseExecutionRoute, MatchedRoute, Clean, Serialize, Search, Path, ValidId;
    hide ChooseConversation, ParseFocusReference, UnsupportedQueryWarnings;
    ExecutionCase(BaseOf(route), route.view, query, location, route.conversation, route.focus, route.handoff);
  }

  lemma NoWarnings(query: Query)
    requires query.Keys <= SUPPORTED_QUERY_PARAMETERS
    ensures UnsupportedQueryWarnings(query, [], SUPPORTED_QUERY_PARAMETERS) == []
  {
    assert query.Keys - SUPPORTED_QUERY_PARAMETERS == {};
  }

  lemma EmptyQueryWarnings()
    ensures UnsupportedQueryWarnings(map[], [], {}) == []
  {
    var query: Query := map[];
    assert query.Keys - {} == {};
  }

  lemma ConversationCase(base: PathBase, decoded: seq<Str>, location: Location, id: RouteId)
    requires ValidBase(base) && ValidId(id)
    requires At(decoded, base.suffixOffset + 1) == Some(id)
    requires ParseQuery(location.search) == Some(map[]) && location.hash == []
    ensures ParseConversationRoute(base, decoded, 2, location) ==
            MatchedRoute(ConversationRoute(base.scope, base.rootSessionId,
                                           if id == base.rootSessionId then RootConversation else AgentConversation(id)),
                         location, [], [])
  {
    hide MatchedRoute, ParseQuery, ValidId, UnsupportedQueryWarnings, RecoveryForRootConversation;
    EmptyQueryWarnings();
  }

  lemma ConversationRoundTrip(route: Route)
    requires ValidRoute(route) && route.ConversationRoute?
    ensures ParseConversationRoute(BaseOf(route), DecodedSegments(route), 2,
                                   Location(Path(route), Search(route), [], Serialize(route))) == Clean(route)
  {
    hide Serialize, Search, Path, ParseQuery, MatchedRoute, ParseConversationRoute, Clean, ValidId, DecodedSegments;
    var location := Location(Path(route), Search(route), [], Serialize(route));
    QueryRoundTrip(route);
    assert Group(Parameters(route)) == map[];
    DecodedRecipient(route);
    ConversationCase(BaseOf(route), DecodedSegments(route), location, MessageRecipient(route));
    MatchedClean(route, location);
  }

  lemma DecodedRecipient(route: Route)
    requires ValidRoute(route) && route.ConversationRoute?
    ensures At(DecodedSegments(route), BaseOf(route).suffixOffset + 1) == Some(MessageRecipient(route))
  {
  }

  lemma SuffixFacts(route: Route)
    requires ValidRoute(route)
    ensures BaseOf(route).suffixOffset <= |PathSegments(route)|
    ensures PathSegments(route)[BaseOf(route).suffixOffset..] ==
            if route.ConversationRoute? then [CONVERSATION, EncodePart(MessageRecipient(route))]
            else [EXECUTION, ViewName(route.view)]
  {
  }

  lemma ViewRoundTrip(view: View)
    ensures ParseView(ViewName(view)) == Some(view)
  {
    TokensDistinct();
  }

  function PrintedLocation(route: Route): Location
    requires ValidRoute(route)
  {
    Location(Path(route), Search(route), [], Serialize(route))
  }

  lemma ConversationDestination(route: Route)
    requires ValidRoute(route) && route.ConversationRoute?
    requires BaseOf(route).suffixOffset <= |PathSegments(route)|
    ensures ParseDestination(BaseOf(route), PathSegments(route), DecodedSegments(route), PrintedLocation(route)) == Clean(route)
  {
    SuffixFacts(route);
    hide PathSegments, DecodedSegments, Serialize, Search, Path, Clean, ParseQuery, ParseExecutionRoute, ParseConversationRoute;
    hide ValidId, EncodePart;
    ConversationRoundTrip(route);
  }

  lemma ExecutionSuffix(base: PathBase, raw: seq<Str>, decoded: seq<Str>, location: Location, view: View, query: Query)
    requires ValidBase(base) && base.suffixOffset <= |raw| && raw[base.suffixOffset..] == [EXECUTION, ViewName(view)]
    requires ParseQuery(location.search) == Some(query)
    ensures ParseDestination(base, raw, decoded, location) == ParseExecutionRoute(base, view, query, location)
  {
    TokensDistinct();
    ViewRoundTrip(view);
    hide ParseQuery, ParseExecutionRoute, ParseConversationRoute, ViewName, ParseView, ValidBase;
    assert raw[base.suffixOffset..][1] == ViewName(view);
  }

  lemma ExecutionDestination(route: Route)
    requires ValidRoute(route) && route.ExecutionRoute?
    requires BaseOf(route).suffixOffset <= |PathSegments(route)|
    ensures ParseDestination(BaseOf(route), PathSegments(route), DecodedSegments(route), PrintedLocation(route)) == Clean(route)
  {
    SuffixFacts(route);
    QueryRoundTrip(route);
    ExecutionRoundTrip(route);
    assert ValidBase(BaseOf(route));
    hide PathSegments, DecodedSegments, Serialize, Search, Path, Clean, ParseQuery, ParseExecutionRoute, ParseDestination;
    hide ValidRoute, ViewName, Group, Parameters, ValidBase, BaseOf;
    ExecutionSuffix(BaseOf(route), PathSegments(route), DecodedSegments(route), PrintedLocation(route), route.view,
                    Group(Parameters(route)));
  }

  lemma DestinationRoundTrip(route: Route)
    requires ValidRoute(route)
    ensures BaseOf(route).suffixOffset <= |PathSegments(route)|
    ensures ParseDestination(BaseOf(route), PathSegments(route), DecodedSegments(route), PrintedLocation(route)) == Clean(route)
  {
    SuffixFacts(route);
    hide PathSegments, DecodedSegments, Serialize, ParseDestination, Clean, PrintedLocation;
    if route.ConversationRoute? {
      ConversationDestination(route);
    } else {
      ExecutionDestination(route);
    }
  }

  /** Parsing a printed route returns exactly that route, with no warning and no correction. */
  lemma ParseSerialize(route: Route)
    requires ValidRoute(route)
    ensures Parse(Url(Serialize(route))) == Clean(route)
    ensures Parse(Parts(Path(route), Search(route), [])) == Clean(route)
  {
    LocationRoundTrip(route);
    PathOwned(route);
    PathFacts(route);
    PathBaseRoundTrip(route);
    DestinationRoundTrip(route);
  }

  /** Two valid routes never share a URL. */
  lemma SerializeInjective(a: Route, b: Route)
    requires ValidRoute(a) && ValidRoute(b)
    requires Serialize(a) == Serialize(b)
    ensures a == b
  {
    ParseSerialize(a);
    ParseSerialize(b);
  }

  // ---------- What the parser promises on every input ----------

  /** The scope and root a path names, read without looking at the rest of the URL. */
  function NamedBase(location: Location): Option<PathBase> {
    DecodePathBase(Split(location.pathname, SLASH))
  }

  lemma PathBasesAgree(raw: seq<Str>, decoded: seq<Str>)
    requires DecodePathSegments(raw) == Some(decoded)
    ensures |raw| == |decoded| && ParsePathBase(raw, decoded) == DecodePathBase(raw)
  {
    TokensDistinct();
    assert forall i | 0 <= i < |raw| :: DecodeURIComponent(raw[i]) == Some(decoded[i]);
    assert DecodeURIComponent([]) == Some([]);
    assert !ValidId([]);
  }

  lemma {:induction false} UniqueNonempty(reasons: seq<CorrectionReason>)
    requires reasons != []
    ensures Unique(reasons) != []
  {
    if |reasons| > 1 {
      UniqueNonempty(reasons[..|reasons| - 1]);
    }
  }

  predicate SoundMatch(r: ParseResult, location: Location, base: PathBase)
    requires r.Match?
  {
    && ValidRoute(r.route)
    && r.route.scope == base.scope && r.route.rootSessionId == base.rootSessionId
    && r.canonicalUrl == Serialize(r.route)
    && (r.correction.None? <==> location.requestedUrl == r.canonicalUrl)
    && (r.correction.Some? ==> r.correction.value.url == r.canonicalUrl && r.correction.value.reasons != [])
  }

  /** A recovery link names the root conversation or the root outline of the same scope and root. */
  predicate SoundRecovery(recovery: Recovery, base: PathBase)
    requires ValidBase(base)
  {
    recovery.url == Serialize(if recovery.destination.RootConversationLabel? then RootConversationRoute(base)
                              else RootOutlineRoute(base))
  }

  predicate SoundDestination(r: ParseResult, location: Location, base: PathBase)
    requires ValidBase(base)
  {
    match r
    case NoRoute => false
    case Match(_, _, _, _) => SoundMatch(r, location, base)
    case Unavailable(_, requested, backTo) =>
      requested == location.requestedUrl && backTo.Some? && SoundRecovery(backTo.value, base)
  }

  lemma MatchedSound(route: Route, location: Location, warnings: seq<Warning>, reasons: seq<CorrectionReason>,
                     base: PathBase)
    requires ValidRoute(route) && route.scope == base.scope && route.rootSessionId == base.rootSessionId
    ensures SoundMatch(MatchedRoute(route, location, warnings, reasons), location, base)
  {
    var all := reasons + WarningReasons(warnings);
    UniqueNonempty(if all == [] then [NoncanonicalUrl] else all);
  }

  lemma ConversationSound(base: PathBase, decoded: seq<Str>, length: nat, location: Location)
    requires ValidBase(base)
    ensures SoundDestination(ParseConversationRoute(base, decoded, length, location), location, base)
  {
    var id := RouteIdOf(At(decoded, base.suffixOffset + 1));
    var query := ParseQuery(location.search);
    if length == 2 && id.Some? && query.Some? {
      var conversation := if id.value == base.rootSessionId then RootConversation else AgentConversation(id.value);
      MatchedSound(ConversationRoute(base.scope, base.rootSessionId, conversation), location,
                   UnsupportedQueryWarnings(query.value, location.hash, {}), [], base);
    }
  }

  lemma ExecutionSound(base: PathBase, view: View, query: Query, location: Location)
    requires ValidBase(base)
    ensures SoundDestination(ParseExecutionRoute(base, view, query, location), location, base)
  {
    hide Serialize, ValidId, ParseFocusReference, Lookup, ChooseConversation, UnsupportedQueryWarnings;
    var r := ParseExecutionRoute(base, view, query, location);
    if r.Match? {
      var choice := ChooseConversation(Lookup(query, CONVERSATION), base.rootSessionId);
      var warnings := choice.warnings + UnsupportedQueryWarnings(query, location.hash, SUPPORTED_QUERY_PARAMETERS);
      var focusReasons :=
        if Lookup(query, FOCUS) != [] && r.route.focus.RootFocus? then [ExplicitFocusDefault] else [];
      var overviewReasons := if Lookup(query, OVERVIEW) != [] then [ExplicitOverviewDefault] else [];
      MatchedSound(r.route, location, warnings, choice.reasons + focusReasons + overviewReasons, base);
    }
  }

  lemma DestinationSound(base: PathBase, raw: seq<Str>, decoded: seq<Str>, location: Location)
    requires ValidBase(base) && base.suffixOffset <= |raw|
    ensures SoundDestination(ParseDestination(base, raw, decoded, location), location, base)
  {
    var suffix := raw[base.suffixOffset..];
    ConversationSound(base, decoded, |suffix|, location);
    var query := ParseQuery(location.search);
    if query.Some? && |suffix| == 2 && ParseView(suffix[1]).Some? {
      ExecutionSound(base, ParseView(suffix[1]).value, query.value, location);
    }
  }

  predicate SoundParse(r: ParseResult, location: Location) {
    var base := NamedBase(location);
    match r
    case NoRoute => !OwnsWorkspacePath(location.pathname)
    case Match(_, _, _, _) => base.Some? && SoundMatch(r, location, base.value)
    case Unavailable(issue, requested, backTo) =>
      && requested == location.requestedUrl
      && (backTo.None? ==> issue.InvalidPath? || issue.InvalidPathEncoding?)
      && (backTo.Some? ==> base.Some? && SoundRecovery(backTo.value, base.value))
  }

  lemma LocationSound(location: Location)
    ensures SoundParse(ParseLocation(location), location)
  {
    hide Serialize, ValidId, ParsePathBase, DecodePathBase, DecodePathSegments, ParseDestination, Split;
    var raw := Split(location.pathname, SLASH);
    var decoded := DecodePathSegments(raw);
    if decoded.Some? {
      PathBasesAgree(raw, decoded.value);
      var base := ParsePathBase(raw, decoded.value);
      if base.Some? {
        DestinationSound(base.value, raw, decoded.value, location);
      }
    }
  }

  /** On every input: a match is a valid route of the scope and root the path names,
      its canonical URL parses back to it cleanly, and it needs no correction exactly
      when it was asked for canonically; recovery links parse cleanly to the same
      scope and root. */
  lemma ParseSound(input: Input)
    ensures SoundParse(Parse(input), LocationOf(input))
    ensures Parse(input).Match? ==> Parse(Url(Parse(input).canonicalUrl)) == Clean(Parse(input).route)
    ensures Parse(input).Unavailable? && Parse(input).backTo.Some? ==>
              var base := NamedBase(LocationOf(input)).value;
              var recovered := Parse(Url(Parse(input).backTo.value.url));
              recovered.Match? && recovered.warnings == [] && recovered.correction.None? &&
              recovered.route.scope == base.scope && recovered.route.rootSessionId == base.rootSessionId &&
              recovered.route.conversation.RootConversation?
  {
    LocationSound(LocationOf(input));
    var r := Parse(input);
    if r.Match? {
      ParseSerialize(r.route);
    } else if r.Unavailable? && r.backTo.Some? {
      var base := NamedBase(LocationOf(input)).value;
      ParseSerialize(RootConversationRoute(base));
      ParseSerialize(RootOutlineRoute(base));
    }
  }

  /** A URL that needs no correction carries no warnings, so corrections reach a fixed point in one step. */
  lemma UncorrectedIsClean(url: Str)
    requires Parse(Url(url)).Match? && Parse(Url(url)).correction.None?
    ensures Parse(Url(url)).warnings == []
  {
    ParseSound(Url(url));
  }

  // ---------- Which execution queries are accepted, and as what ----------

  function PrintFocus(focus: Focus, root: RouteId): Str {
    match focus
    case RootFocus => ROOT + [COLON] + root
    case DelegationFocus(id) => DELEGATION + [COLON] + id
    case AgentFocus(id) => AGENT + [COLON] + id
  }

  lemma RootToken()
    ensures IsWord(ROOT) && ROOT != []
  {
    WordLit("root");
  }

  lemma SplitTypedExact(value: Str)
    ensures SplitTypedReference(value).Some? ==>
              value == SplitTypedReference(value).value.kind + [COLON] + SplitTypedReference(value).value.id
  {
    var i := IndexOf(value, COLON);
    if i >= 1 {
      assert value == value[..i] + [COLON] + value[i + 1..];
    }
  }

  lemma FocusReferencePrints(value: Str, root: RouteId)
    requires ParseFocusReference(value, root).Some?
    ensures value == PrintFocus(ParseFocusReference(value, root).value, root)
  {
    SplitTypedExact(value);
  }

  lemma PrintedFocusParses(focus: Focus, root: RouteId)
    requires ValidId(root) && ValidFocus(focus, root)
    ensures ParseFocusReference(PrintFocus(focus, root), root) == Some(focus)
  {
    QueryTokens();
    RootToken();
    TokensDistinct();
    match focus {
      case RootFocus => TypedReference(ROOT, root);
      case DelegationFocus(id) => TypedReference(DELEGATION, id);
      case AgentFocus(id) => TypedReference(AGENT, id);
    }
  }

  /** A focus reference is accepted exactly when it is the printed form of a valid focus. */
  lemma FocusReferenceExact(value: Str, root: RouteId, focus: Focus)
    requires ValidId(root)
    ensures ParseFocusReference(value, root) == Some(focus) <==>
            ValidFocus(focus, root) && value == PrintFocus(focus, root)
  {
    if ParseFocusReference(value, root) == Some(focus) {
      FocusReferencePrints(value, root);
    } else if ValidFocus(focus, root) && value == PrintFocus(focus, root) {
      PrintedFocusParses(focus, root);
    }
  }

  lemma ConversationReferenceExact(value: Str, root: RouteId, id: RouteId)
    requires ValidId(root)
    ensures ParseConversationReference(value, root) == Some(ToAgent(id)) <==>
            ValidId(id) && id != root && value == AGENT + [COLON] + id
    ensures ParseConversationReference(value, root) == Some(ToRoot) <==> value == ROOT + [COLON] + root
  {
    QueryTokens();
    RootToken();
    TokensDistinct();
    SplitTypedExact(value);
    TypedReference(ROOT, root);
    TypedReference(AGENT, id);
  }

  ghost predicate FocusAccepted(values: seq<Str>, root: RouteId, focus: Focus) {
    (values == [] && focus.RootFocus?) || (ValidFocus(focus, root) && values == [PrintFocus(focus, root)])
  }

  ghost predicate HandoffAccepted(values: seq<Str>) {
    values == [] || (|values| == 1 && ValidId(values[0]))
  }

  ghost predicate OverviewAccepted(values: seq<Str>, view: View) {
    values == [] || (view == Overview && values == [OUTLINE])
  }

  ghost predicate SomeFocusAccepted(values: seq<Str>, root: RouteId) {
    exists focus :: FocusAccepted(values, root, focus)
  }

  lemma ChosenFocus(values: seq<Str>, root: RouteId)
    requires ValidId(root)
    ensures SomeFocusAccepted(values, root) <==>
            values == [] || (|values| == 1 && ParseFocusReference(values[0], root).Some?)
    ensures |values| == 1 && ParseFocusReference(values[0], root).Some? ==>
              FocusAccepted(values, root, ParseFocusReference(values[0], root).value)
  {
    if values == [] {
      assert FocusAccepted(values, root, RootFocus);
    } else if |values| == 1 {
      forall focus
        ensures ParseFocusReference(values[0], root) == Some(focus) <==> FocusAccepted(values, root, focus)
      {
        FocusReferenceExact(values[0], root, focus);
      }
    }
  }

  lemma ChosenConversation(values: seq<Str>, root: RouteId, id: RouteId)
    requires ValidId(root)
    ensures ChooseConversation(values, root).conversation == AgentConversation(id) <==>
            ValidId(id) && id != root && values == [AGENT + [COLON] + id]
  {
    if |values| == 1 {
      ConversationReferenceExact(values[0], root, id);
    }
  }

  /** An execution query matches exactly when its focus, handoff and overview values are
      acceptable, the first unacceptable one in that order is the issue reported, and the
      matched route carries what the values print. The conversation value never decides
      availability: it is taken when it names another agent and is the root otherwise. */
  lemma ExecutionAccepted(base: PathBase, view: View, query: Query, location: Location)
    requires ValidBase(base)
    ensures var r := ParseExecutionRoute(base, view, query, location);
            var focusOk := SomeFocusAccepted(Lookup(query, FOCUS), base.rootSessionId);
            var handoffOk := HandoffAccepted(Lookup(query, HANDOFF));
            var overviewOk := OverviewAccepted(Lookup(query, OVERVIEW), view);
            && (r.Match? <==> focusOk && handoffOk && overviewOk)
            && (r.Match? ==>
                  && FocusAccepted(Lookup(query, FOCUS), base.rootSessionId, r.route.focus)
                  && Lookup(query, HANDOFF) == HandoffValues(r.route.handoff)
                  && r.route.view == view
                  && forall id :: r.route.conversation == AgentConversation(id) <==>
                       ValidId(id) && id != base.rootSessionId &&
                       Lookup(query, CONVERSATION) == [AGENT + [COLON] + id])
            && (!r.Match? ==>
                  && r.Unavailable?
                  && r.issue == (if !focusOk then InvalidFocus else if !handoffOk then InvalidHandoff
                                 else UnsupportedOverview))
  {
    var root := base.rootSessionId;
    ChosenFocus(Lookup(query, FOCUS), root);
    forall id
      ensures ChooseConversation(Lookup(query, CONVERSATION), root).conversation == AgentConversation(id) <==>
              ValidId(id) && id != root && Lookup(query, CONVERSATION) == [AGENT + [COLON] + id]
    {
      ChosenConversation(Lookup(query, CONVERSATION), root, id);
    }
  }
}
