/** What the parser answers, for every location: which paths it owns, which route it
    builds from them, which issue it reports and where back to, and which warnings and
    correction reasons come with a match. */
module WorkspaceRouteExact {
  import opened CodeUnits
  import opened Percent
  import Utf8
  import opened WorkspaceRoute
  import opened WorkspaceRouteProofs

  // ---------- The path ----------

  ghost predicate SegmentIs(raw: seq<Str>, i: nat, id: RouteId) {
    i < |raw| && DecodeURIComponent(raw[i]) == Some(id) && ValidId(id)
  }

  /** The path begins with the segments of this scope and root. */
  ghost predicate Names(raw: seq<Str>, base: PathBase) {
    match base.scope
    case Project(id) =>
      && base.suffixOffset == 6 && |raw| >= 6
      && raw[0] == EMPTY && raw[1] == W && raw[2] == PROJECT && raw[4] == RUN
      && SegmentIs(raw, 3, id) && SegmentIs(raw, 5, base.rootSessionId)
    case Host =>
      && base.suffixOffset == 5 && |raw| >= 5
      && raw[0] == EMPTY && raw[1] == W && raw[2] == HOST && raw[3] == RUN
      && SegmentIs(raw, 4, base.rootSessionId)
  }

  lemma NamedExact(raw: seq<Str>, base: PathBase)
    ensures DecodePathBase(raw) == Some(base) <==> Names(raw, base)
  {
    hide ValidId, DecodeURIComponent;
    NoEmptyId();
    TokensDistinct();
  }

  lemma NoEmptyId()
    ensures DecodeURIComponent([]) == Some([]) && !ValidId([])
  {
  }

  ghost predicate Decodes(raw: seq<Str>) {
    forall i | 0 <= i < |raw| :: DecodeURIComponent(raw[i]).Some?
  }

  predicate InWorkspace(raw: seq<Str>) { |raw| >= 2 && raw[0] == EMPTY && raw[1] == W }

  lemma OwnedExact(pathname: Str)
    ensures OwnsWorkspacePath(pathname) <==> InWorkspace(Split(pathname, SLASH))
  {
    hide OwnsWorkspacePath, Split;
    JoinSplit(pathname, SLASH);
    if InWorkspace(Split(pathname, SLASH)) {
      JoinedOwned(Split(pathname, SLASH));
    }
    if OwnsWorkspacePath(pathname) {
      SplitOwned(pathname);
    }
  }

  lemma JoinedOwned(raw: seq<Str>)
    requires InWorkspace(raw)
    ensures OwnsWorkspacePath(Join(raw, SLASH))
  {
    var pathname := Join(raw, SLASH);
    var rest := raw[1..];
    assert Lit("/w") == [SLASH, W[0]] && Lit("/w/") == [SLASH, W[0], SLASH] && W == [W[0]];
    assert rest[0] == W && pathname == [SLASH] + Join(rest, SLASH);
    if |raw| > 2 {
      assert Join(rest, SLASH) == W + [SLASH] + Join(rest[1..], SLASH);
      assert pathname[..3] == [SLASH, W[0], SLASH];
    }
  }

  lemma SplitOwned(pathname: Str)
    requires OwnsWorkspacePath(pathname)
    ensures InWorkspace(Split(pathname, SLASH))
  {
    assert Lit("/w") == [SLASH] + W && Lit("/w/") == [SLASH] + W + [SLASH];
    assert SLASH !in W;
    var rest := pathname[1..];
    assert pathname == [] + [SLASH] + rest;
    SplitFirst([], SLASH, rest);
    if pathname == Lit("/w") {
      assert rest == W;
      assert Split(W, SLASH) == [W];
    } else {
      assert pathname[..3][1] == pathname[1] && pathname[..3][2] == pathname[2];
      assert rest == W + [SLASH] + pathname[3..];
      SplitFirst(W, SLASH, pathname[3..]);
    }
  }

  lemma ViewExact(name: Str, view: View)
    ensures ParseView(name) == Some(view) <==> name == ViewName(view)
  {
    TokensDistinct();
  }

  // ---------- Warnings and correction reasons ----------

  function WarningRank(warning: Warning): nat {
    match warning
    case InvalidExecutionConversation(_, _) => 0
    case UnsupportedQuery(_) => 1
    case UnsupportedFragment => 2
  }

  predicate WarningsInOrder(warnings: seq<Warning>) {
    forall i, j | 0 <= i < j < |warnings| :: WarningRank(warnings[i]) < WarningRank(warnings[j])
  }

  predicate WarnsOfQuery(warnings: seq<Warning>) { exists i | 0 <= i < |warnings| :: warnings[i].UnsupportedQuery? }

  /** The warning for a conversation parameter that names neither the root nor another agent. */
  ghost predicate FallbackWarning(values: seq<Str>, root: RouteId, warning: Warning) {
    && values != []
    && values != [ROOT + [COLON] + root]
    && (forall id | ValidId(id) && id != root :: values != [AGENT + [COLON] + id])
    && warning.InvalidExecutionConversation?
    && warning.requestedValue == (if |values| == 1 then Some(values[0]) else None)
    && (warning.reason == WrongRoot <==> exists id :: ValidId(id) && id != root && values == [ROOT + [COLON] + id])
  }

  /** One warning for the parameters that are not supported, one for a fragment, and before them
      the one for the conversation values, if any. */
  ghost predicate WarningsExact(warnings: seq<Warning>, values: seq<Str>, root: RouteId, query: Query, hash: Str, supported: set<Str>) {
    && WarningsInOrder(warnings)
    && (forall names :: UnsupportedQuery(names) in warnings <==> names != {} && names == query.Keys - supported)
    && (UnsupportedFragment in warnings <==> hash != [])
    && (forall warning: Warning | warning.InvalidExecutionConversation? ::
          warning in warnings <==> FallbackWarning(values, root, warning))
  }

  function ReasonRank(reason: CorrectionReason): nat {
    match reason
    case ExplicitConversationDefault => 0
    case InvalidConversationFallback => 0
    case ExplicitFocusDefault => 1
    case ExplicitOverviewDefault => 2
    case UnsupportedQueryRemoved => 3
    case UnsupportedFragmentRemoved => 4
    case NoncanonicalUrl => 5
  }

  predicate ReasonsInOrder(reasons: seq<CorrectionReason>) {
    forall i, j | 0 <= i < j < |reasons| :: ReasonRank(reasons[i]) < ReasonRank(reasons[j])
  }

  /** Each reason once, in order, exactly when it applies. */
  ghost predicate ReasonsExact(reasons: seq<CorrectionReason>, warnings: seq<Warning>, explicit: set<CorrectionReason>) {
    && ReasonsInOrder(reasons)
    && (forall reason | ReasonRank(reason) <= 2 :: reason in reasons <==> reason in explicit)
    && (UnsupportedQueryRemoved in reasons <==> WarnsOfQuery(warnings))
    && (UnsupportedFragmentRemoved in reasons <==> UnsupportedFragment in warnings)
    && (NoncanonicalUrl in reasons <==> reasons == [NoncanonicalUrl])
  }

  lemma {:induction false} UniqueInOrder(reasons: seq<CorrectionReason>)
    requires ReasonsInOrder(reasons)
    ensures Unique(reasons) == reasons
  {
    if reasons != [] {
      var n := |reasons| - 1;
      UniqueInOrder(reasons[..n]);
      assert reasons[n] !in reasons[..n];
    }
  }

  /** The reasons that come from warnings: at most one for parameters, then one for a fragment. */
  predicate FromWarnings(reasons: seq<CorrectionReason>, warnings: seq<Warning>) {
    && ReasonsInOrder(reasons)
    && (forall i | 0 <= i < |reasons| :: reasons[i].UnsupportedQueryRemoved? || reasons[i].UnsupportedFragmentRemoved?)
    && (UnsupportedQueryRemoved in reasons <==> WarnsOfQuery(warnings))
    && (UnsupportedFragmentRemoved in reasons <==> UnsupportedFragment in warnings)
  }

  lemma {:induction false} WarningReasonsExact(warnings: seq<Warning>)
    requires WarningsInOrder(warnings)
    ensures FromWarnings(WarningReasons(warnings), warnings)
  {
    if warnings != [] {
      var rest := warnings[1..];
      assert warnings == [warnings[0]] + rest;
      WarningReasonsExact(rest);
      assert forall i | 0 <= i < |rest| :: rest[i] == warnings[i + 1];
      hide WarningReasons;
      FirstWarning(warnings[0], rest, WarningReasons(rest));
    }
  }

  function ReasonFor(warning: Warning): seq<CorrectionReason> {
    match warning
    case UnsupportedQuery(_) => [UnsupportedQueryRemoved]
    case UnsupportedFragment => [UnsupportedFragmentRemoved]
    case InvalidExecutionConversation(_, _) => []
  }

  lemma FirstWarning(first: Warning, rest: seq<Warning>, reasons: seq<CorrectionReason>)
    requires FromWarnings(reasons, rest)
    requires forall i | 0 <= i < |rest| :: WarningRank(first) < WarningRank(rest[i])
    ensures FromWarnings(ReasonFor(first) + reasons, [first] + rest)
  {
    var all := [first] + rest;
    assert all[0] == first && forall i | 0 <= i < |rest| :: all[i + 1] == rest[i];
    assert WarnsOfQuery(all) <==> first.UnsupportedQuery? || WarnsOfQuery(rest);
    match first
    case UnsupportedQuery(_) => FirstIsQuery(reasons, rest, all);
    case UnsupportedFragment =>
      LastWarning(rest, reasons);
      assert UnsupportedFragment in all && ReasonFor(first) + reasons == [UnsupportedFragmentRemoved];
      hide WarnsOfQuery;
    case InvalidExecutionConversation(_, _) =>
      assert ReasonFor(first) + reasons == reasons;
      hide WarnsOfQuery, ReasonsInOrder;
  }

  lemma FirstIsQuery(reasons: seq<CorrectionReason>, rest: seq<Warning>, all: seq<Warning>)
    requires FromWarnings(reasons, rest) && !WarnsOfQuery(rest) && WarnsOfQuery(all)
    requires UnsupportedFragment in all <==> UnsupportedFragment in rest
    ensures FromWarnings([UnsupportedQueryRemoved] + reasons, all)
  {
    hide WarnsOfQuery;
    var first := [UnsupportedQueryRemoved];
    assert forall x | x in reasons :: x == UnsupportedFragmentRemoved;
    ReasonsConcat(first, reasons);
    hide ReasonsInOrder;
    assert (first + reasons)[0] == UnsupportedQueryRemoved;
  }

  lemma HasMember(reasons: seq<CorrectionReason>)
    ensures reasons == [] || exists reason :: reason in reasons
  {
    if reasons != [] {
      assert reasons[0] in reasons;
    }
  }

  lemma LastWarning(rest: seq<Warning>, reasons: seq<CorrectionReason>)
    requires FromWarnings(reasons, rest) && forall i | 0 <= i < |rest| :: WarningRank(rest[i]) > 2
    ensures reasons == []
  {
    assert UnsupportedQueryRemoved !in reasons && UnsupportedFragmentRemoved !in reasons;
    HasMember(reasons);
  }

  lemma UnsupportedExact(query: Query, hash: Str, supported: set<Str>, before: seq<Warning>, values: seq<Str>, root: RouteId)
    requires |before| <= 1 && forall warning :: warning in before <==> FallbackWarning(values, root, warning)
    ensures var warnings := before + UnsupportedQueryWarnings(query, hash, supported);
            WarningsExact(warnings, values, root, query, hash, supported) && WarningsInOrder(warnings)
  {
    var more := UnsupportedQueryWarnings(query, hash, supported);
    assert forall i | 0 <= i < |before| :: before[i] in before;
    assert forall warning | warning in more :: !warning.InvalidExecutionConversation?;
    assert forall warning :: warning in before + more <==> warning in before || warning in more;
    UnsupportedListed(query, hash, supported);
    hide FallbackWarning, UnsupportedQueryWarnings;
    assert forall warning | warning in before :: WarningRank(warning) == 0;
  }

  lemma UnsupportedListed(query: Query, hash: Str, supported: set<Str>)
    ensures var warnings := UnsupportedQueryWarnings(query, hash, supported);
            && WarningsInOrder(warnings) && (forall i | 0 <= i < |warnings| :: WarningRank(warnings[i]) > 0)
            && (forall names :: UnsupportedQuery(names) in warnings <==> names != {} && names == query.Keys - supported)
            && (UnsupportedFragment in warnings <==> hash != [])
  {
  }

  lemma ReasonsConcat(a: seq<CorrectionReason>, b: seq<CorrectionReason>)
    requires ReasonsInOrder(a) && ReasonsInOrder(b)
    requires forall x, y | x in a && y in b :: ReasonRank(x) < ReasonRank(y)
    ensures ReasonsInOrder(a + b)
  {
  }

  /** A match is the route, its canonical URL, the warnings, and a correction to that URL with
      exactly the applicable reasons unless it was asked for. */
  ghost predicate MatchExact(r: ParseResult, location: Location, warnings: seq<Warning>, explicit: set<CorrectionReason>) {
    && r.Match? && ValidRoute(r.route) && r.canonicalUrl == Serialize(r.route) && r.warnings == warnings
    && (r.correction.None? <==> location.requestedUrl == Serialize(r.route))
    && (r.correction.Some? ==>
          r.correction.value.url == Serialize(r.route) && ReasonsExact(r.correction.value.reasons, warnings, explicit))
  }

  /** The reasons given, before duplicates would be dropped. */
  function Shown(all: seq<CorrectionReason>): seq<CorrectionReason> { if all == [] then [NoncanonicalUrl] else all }

  lemma FromWarningsRank(more: seq<CorrectionReason>, warnings: seq<Warning>)
    requires FromWarnings(more, warnings)
    ensures forall reason | reason in more :: 3 <= ReasonRank(reason) <= 4
  {
  }

  lemma ShownInOrder(reasons: seq<CorrectionReason>, more: seq<CorrectionReason>)
    requires ReasonsInOrder(reasons) && ReasonsInOrder(more)
    requires forall reason | reason in reasons :: ReasonRank(reason) <= 2
    requires forall reason | reason in more :: 3 <= ReasonRank(reason) <= 4
    ensures var shown := Shown(reasons + more); ReasonsInOrder(shown) && Unique(shown) == shown
  {
    ReasonsConcat(reasons, more);
    UniqueInOrder(Shown(reasons + more));
  }

  lemma ShownExact(reasons: seq<CorrectionReason>, more: seq<CorrectionReason>, warnings: seq<Warning>, explicit: set<CorrectionReason>)
    requires ReasonsInOrder(reasons) && FromWarnings(more, warnings)
    requires forall reason :: reason in reasons <==> reason in explicit
    requires forall reason | reason in explicit :: ReasonRank(reason) <= 2
    ensures ReasonsExact(Shown(reasons + more), warnings, explicit)
    ensures Unique(Shown(reasons + more)) == Shown(reasons + more)
  {
    FromWarningsRank(more, warnings);
    ShownInOrder(reasons, more);
    hide WarnsOfQuery, ReasonsInOrder, Unique;
    if reasons + more == [] {
      assert reasons == [] && more == [];
      assert Shown(reasons + more) == [NoncanonicalUrl];
    } else {
      AllShown(reasons, more, warnings, explicit);
    }
  }

  lemma AllShown(reasons: seq<CorrectionReason>, more: seq<CorrectionReason>, warnings: seq<Warning>, explicit: set<CorrectionReason>)
    requires ReasonsInOrder(reasons + more) && FromWarnings(more, warnings)
    requires forall reason :: reason in reasons <==> reason in explicit
    requires forall reason | reason in explicit :: ReasonRank(reason) <= 2
    requires forall reason | reason in more :: 3 <= ReasonRank(reason) <= 4
    ensures ReasonsExact(reasons + more, warnings, explicit)
  {
    hide WarnsOfQuery, ReasonsInOrder;
    var all := reasons + more;
    forall reason: CorrectionReason
      ensures reason in all <==> reason in reasons || reason in more
    {
    }
    assert NoncanonicalUrl !in all && NoncanonicalUrl in [NoncanonicalUrl];
  }

  lemma MatchedExact(route: Route, location: Location, warnings: seq<Warning>, reasons: seq<CorrectionReason>, explicit: set<CorrectionReason>)
    requires ValidRoute(route) && WarningsInOrder(warnings) && ReasonsInOrder(reasons)
    requires forall reason :: reason in reasons <==> reason in explicit
    requires forall reason | reason in explicit :: ReasonRank(reason) <= 2
    ensures MatchExact(MatchedRoute(route, location, warnings, reasons), location, warnings, explicit)
    ensures MatchedRoute(route, location, warnings, reasons).route == route
  {
    hide Serialize, ValidRoute, WarningReasons, Unique, ReasonsExact, ReasonsInOrder, WarningsInOrder, FromWarnings;
    WarningReasonsExact(warnings);
    ShownExact(reasons, WarningReasons(warnings), warnings, explicit);
  }

  // ---------- Conversation URLs ----------

  function ToRootConversation(base: PathBase): Recovery
    requires ValidBase(base)
  {
    Recovery(RootConversationLabel, Serialize(ConversationRoute(base.scope, base.rootSessionId, RootConversation)))
  }

  function ToRootOutline(base: PathBase): Recovery
    requires ValidBase(base)
  {
    Recovery(RootOutlineLabel,
             Serialize(ExecutionRoute(base.scope, base.rootSessionId, Overview, RootConversation, RootFocus, None)))
  }

  /** A conversation URL matches exactly when it names one valid session id and its query
      decodes; messages then go to that session, whatever the query and the fragment hold, and
      those are warned about and dropped. Otherwise the first of the two is the issue. */
  ghost predicate ConversationOutcome(r: ParseResult, location: Location, base: PathBase, suffix: seq<Str>)
    requires ValidBase(base)
  {
    var named := |suffix| == 2 && exists id :: SegmentIs(suffix, 1, id);
    var query := ParseQuery(location.search);
    && (r.Match? <==> named && query.Some?)
    && (r.Match? ==>
          && r.route.ConversationRoute? && r.route.scope == base.scope && r.route.rootSessionId == base.rootSessionId
          && SegmentIs(suffix, 1, MessageRecipient(r.route))
          && WarningsExact(r.warnings, [], base.rootSessionId, query.value, location.hash, {})
          && MatchExact(r, location, r.warnings, {}))
    && (!r.Match? ==>
          r == Unavailable(if !named then InvalidConversation else InvalidQueryEncoding, location.requestedUrl,
                           Some(ToRootConversation(base))))
  }

  lemma ConversationExact(base: PathBase, raw: seq<Str>, decoded: seq<Str>, location: Location)
    requires ValidBase(base) && base.suffixOffset <= |raw| && DecodePathSegments(raw) == Some(decoded)
    ensures var suffix := raw[base.suffixOffset..];
            ConversationOutcome(ParseConversationRoute(base, decoded, |suffix|, location), location, base, suffix)
  {
    var suffix := raw[base.suffixOffset..];
    var query := ParseQuery(location.search);
    hide Serialize, ValidId, ParseQuery, DecodeURIComponent, UnsupportedQueryWarnings, WarningsExact, MatchExact, WarningsInOrder;
    if |suffix| == 2 {
      assert suffix[1] == raw[base.suffixOffset + 1];
      var id := decoded[base.suffixOffset + 1];
      assert DecodeURIComponent(suffix[1]) == Some(id);
      if ValidId(id) {
        assert SegmentIs(suffix, 1, id);
        if query.Some? {
          var conversation := if id == base.rootSessionId then RootConversation else AgentConversation(id);
          var warnings := UnsupportedQueryWarnings(query.value, location.hash, {});
          assert [] + warnings == warnings;
          UnsupportedExact(query.value, location.hash, {}, [], [], base.rootSessionId);
          MatchedExact(ConversationRoute(base.scope, base.rootSessionId, conversation), location, warnings, [], {});
        }
      }
    }
  }

  // ---------- Execution URLs ----------

  lemma ReferenceExact(value: Str, root: RouteId)
    requires ValidId(root)
    ensures ParseConversationReference(value, root) == Some(ToRoot) <==> value == ROOT + [COLON] + root
    ensures forall id :: ParseConversationReference(value, root) == Some(ToAgent(id)) <==>
              ValidId(id) && id != root && value == AGENT + [COLON] + id
    ensures ParseConversationReference(value, root) == Some(ToWrongRoot) <==>
              exists id :: ValidId(id) && id != root && value == ROOT + [COLON] + id
  {
    forall id
      ensures ParseConversationReference(value, root) == Some(ToAgent(id)) <==>
              ValidId(id) && id != root && value == AGENT + [COLON] + id
      ensures ParseConversationReference(value, root) == Some(ToRoot) <==> value == ROOT + [COLON] + root
    {
      ConversationReferenceExact(value, root, id);
    }
    ConversationReferenceExact(value, root, root);
    WrongRootExact(value, root);
  }

  lemma WrongRootExact(value: Str, root: RouteId)
    requires ValidId(root)
    ensures ParseConversationReference(value, root) == Some(ToWrongRoot) <==>
              exists id :: ValidId(id) && id != root && value == ROOT + [COLON] + id
  {
    hide ValidId;
    RootToken();
    TokensDistinct();
    SplitTypedExact(value);
    if id :| ValidId(id) && id != root && value == ROOT + [COLON] + id {
      TypedReference(ROOT, id);
    }
  }

  ghost function ExplicitConversation(values: seq<Str>, root: RouteId): set<CorrectionReason> {
    if values == [ROOT + [COLON] + root] then {ExplicitConversationDefault}
    else if exists warning :: FallbackWarning(values, root, warning) then {InvalidConversationFallback}
    else {}
  }

  /** The conversation parameter: taken if it names another agent, the root otherwise. */
  ghost predicate ChoiceExact(choice: ConversationChoice, values: seq<Str>, root: RouteId) {
    && (forall id :: choice.conversation == AgentConversation(id) <==>
          ValidId(id) && id != root && values == [AGENT + [COLON] + id])
    && |choice.warnings| <= 1
    && (forall warning :: warning in choice.warnings <==> FallbackWarning(values, root, warning))
    && |choice.reasons| <= 1
    && (forall reason :: reason in choice.reasons <==> reason in ExplicitConversation(values, root))
  }

  lemma FallbackUnique(values: seq<Str>, root: RouteId, a: Warning, b: Warning)
    requires FallbackWarning(values, root, a) && FallbackWarning(values, root, b)
    ensures a == b
  {
  }

  lemma ChosenExact(values: seq<Str>, root: RouteId)
    requires ValidId(root)
    ensures ChoiceExact(ChooseConversation(values, root), values, root)
  {
    hide ValidId, ParseConversationReference;
    forall id
      ensures ChooseConversation(values, root).conversation == AgentConversation(id) <==>
              ValidId(id) && id != root && values == [AGENT + [COLON] + id]
    {
      ChosenConversation(values, root, id);
    }
    if |values| == 1 {
      ReferenceExact(values[0], root);
    }
    var choice := ChooseConversation(values, root);
    if choice.warnings != [] {
      assert FallbackWarning(values, root, choice.warnings[0]);
      forall warning | FallbackWarning(values, root, warning)
        ensures warning == choice.warnings[0]
      {
        FallbackUnique(values, root, warning, choice.warnings[0]);
      }
    } else {
      assert forall warning :: !FallbackWarning(values, root, warning);
    }
  }

  /** The defaults that an execution URL spells out. */
  ghost function ExplicitReasons(query: Query, root: RouteId): set<CorrectionReason> {
    ExplicitConversation(Lookup(query, CONVERSATION), root) +
    (if Lookup(query, FOCUS) == [PrintFocus(RootFocus, root)] then {ExplicitFocusDefault} else {}) +
    (if Lookup(query, OVERVIEW) != [] then {ExplicitOverviewDefault} else {})
  }

  lemma ThreeInOrder(a: seq<CorrectionReason>, b: seq<CorrectionReason>, c: seq<CorrectionReason>)
    requires |a| <= 1 && |b| <= 1 && |c| <= 1
    requires (forall x | x in a :: ReasonRank(x) == 0) && (forall x | x in b :: ReasonRank(x) == 1) &&
             (forall x | x in c :: ReasonRank(x) == 2)
    ensures ReasonsInOrder(a + b + c)
    ensures forall x :: x in a + b + c <==> x in a || x in b || x in c
  {
    ReasonsConcat(a, b);
    ReasonsConcat(a + b, c);
  }

  /** An execution URL whose query decodes matches exactly when focus, handoff and overview are
      acceptable, and carries what they and the conversation parameter print. */
  ghost predicate ExecutionMatched(r: ParseResult, location: Location, base: PathBase, view: View, query: Query) {
    && r.Match? && r.route.ExecutionRoute? && r.route.scope == base.scope && r.route.rootSessionId == base.rootSessionId
    && r.route.view == view
    && FocusAccepted(Lookup(query, FOCUS), base.rootSessionId, r.route.focus)
    && Lookup(query, HANDOFF) == HandoffValues(r.route.handoff)
    && (forall id :: r.route.conversation == AgentConversation(id) <==>
          ValidId(id) && id != base.rootSessionId && Lookup(query, CONVERSATION) == [AGENT + [COLON] + id])
    && WarningsExact(r.warnings, Lookup(query, CONVERSATION), base.rootSessionId, query, location.hash,
                     {CONVERSATION, FOCUS, HANDOFF, OVERVIEW})
    && MatchExact(r, location, r.warnings, ExplicitReasons(query, base.rootSessionId))
  }

  ghost predicate ExecutionOutcome(r: ParseResult, location: Location, base: PathBase, view: View)
    requires ValidBase(base)
  {
    match ParseQuery(location.search)
    case None => r == Unavailable(InvalidQueryEncoding, location.requestedUrl, Some(ToRootOutline(base)))
    case Some(query) =>
      var focusOk := SomeFocusAccepted(Lookup(query, FOCUS), base.rootSessionId);
      var handoffOk := HandoffAccepted(Lookup(query, HANDOFF));
      if focusOk && handoffOk && OverviewAccepted(Lookup(query, OVERVIEW), view)
      then ExecutionMatched(r, location, base, view, query)
      else r == Unavailable(if !focusOk then InvalidFocus else if !handoffOk then InvalidHandoff else UnsupportedOverview,
                            location.requestedUrl, Some(ToRootOutline(base)))
  }

  function FocusReasons(values: seq<Str>, focus: Focus): seq<CorrectionReason> {
    if values != [] && focus.RootFocus? then [ExplicitFocusDefault] else []
  }

  function OverviewReasons(values: seq<Str>): seq<CorrectionReason> {
    if values != [] then [ExplicitOverviewDefault] else []
  }

  lemma ExecutionForm(base: PathBase, view: View, query: Query, location: Location)
    requires ValidBase(base) && ParseExecutionRoute(base, view, query, location).Match?
    ensures var r := ParseExecutionRoute(base, view, query, location);
            var choice := ChooseConversation(Lookup(query, CONVERSATION), base.rootSessionId);
            && ValidRoute(r.route) && r.route.ExecutionRoute?
            && r.route.scope == base.scope && r.route.rootSessionId == base.rootSessionId
            && r == MatchedRoute(r.route, location,
                                 choice.warnings + UnsupportedQueryWarnings(query, location.hash, SUPPORTED_QUERY_PARAMETERS),
                                 choice.reasons + FocusReasons(Lookup(query, FOCUS), r.route.focus) +
                                 OverviewReasons(Lookup(query, OVERVIEW)))
  {
    hide Serialize, ValidId, ParseFocusReference, Lookup, ChooseConversation, UnsupportedQueryWarnings, Unique, WarningReasons;
  }

  lemma ExecutionReasons(choice: ConversationChoice, query: Query, root: RouteId, focus: Focus)
    requires ChoiceExact(choice, Lookup(query, CONVERSATION), root) && FocusAccepted(Lookup(query, FOCUS), root, focus)
    requires ValidId(root)
    ensures var reasons := choice.reasons + FocusReasons(Lookup(query, FOCUS), focus) + OverviewReasons(Lookup(query, OVERVIEW));
            ReasonsInOrder(reasons) && forall reason :: reason in reasons <==> reason in ExplicitReasons(query, root)
    ensures forall reason | reason in ExplicitReasons(query, root) :: ReasonRank(reason) <= 2
  {
    RootFocusPrinted(Lookup(query, FOCUS), root, focus);
    hide Lookup, FallbackWarning, FocusAccepted, ReasonsInOrder;
    ThreeInOrder(choice.reasons, FocusReasons(Lookup(query, FOCUS), focus), OverviewReasons(Lookup(query, OVERVIEW)));
  }

  lemma RootFocusPrinted(values: seq<Str>, root: RouteId, focus: Focus)
    requires FocusAccepted(values, root, focus) && ValidId(root)
    ensures values != [] && focus.RootFocus? <==> values == [PrintFocus(RootFocus, root)]
  {
    if values == [PrintFocus(RootFocus, root)] {
      FocusReferenceExact(values[0], root, focus);
      FocusReferenceExact(values[0], root, RootFocus);
    }
  }

  lemma ExecutionMatchExact(base: PathBase, view: View, query: Query, location: Location)
    requires ValidBase(base) && ParseExecutionRoute(base, view, query, location).Match?
    ensures ExecutionMatched(ParseExecutionRoute(base, view, query, location), location, base, view, query)
  {
    hide Serialize, ValidId, ParseFocusReference, Lookup, ChooseConversation, UnsupportedQueryWarnings, ParseExecutionRoute;
    hide MatchedRoute, FallbackWarning, ChoiceExact, FocusAccepted, MatchExact, WarningsExact, ReasonsInOrder, WarningsInOrder;
    hide ExplicitReasons, FocusReasons, OverviewReasons, ValidRoute, SomeFocusAccepted;
    var root := base.rootSessionId;
    var r := ParseExecutionRoute(base, view, query, location);
    var choice := ChooseConversation(Lookup(query, CONVERSATION), root);
    ExecutionAccepted(base, view, query, location);
    ExecutionForm(base, view, query, location);
    ChosenExact(Lookup(query, CONVERSATION), root);
    ChoiceWarnings(choice, Lookup(query, CONVERSATION), root);
    UnsupportedExact(query, location.hash, SUPPORTED_QUERY_PARAMETERS, choice.warnings, Lookup(query, CONVERSATION), root);
    ExecutionReasons(choice, query, root, r.route.focus);
    MatchedExact(r.route, location, choice.warnings + UnsupportedQueryWarnings(query, location.hash, SUPPORTED_QUERY_PARAMETERS),
                 choice.reasons + FocusReasons(Lookup(query, FOCUS), r.route.focus) + OverviewReasons(Lookup(query, OVERVIEW)),
                 ExplicitReasons(query, root));
    MatchWarnings(r.route, location, choice.warnings + UnsupportedQueryWarnings(query, location.hash, SUPPORTED_QUERY_PARAMETERS),
                  choice.reasons + FocusReasons(Lookup(query, FOCUS), r.route.focus) + OverviewReasons(Lookup(query, OVERVIEW)));
  }

  lemma MatchWarnings(route: Route, location: Location, warnings: seq<Warning>, reasons: seq<CorrectionReason>)
    requires ValidRoute(route)
    ensures MatchedRoute(route, location, warnings, reasons).warnings == warnings
  {
  }

  lemma ChoiceWarnings(choice: ConversationChoice, values: seq<Str>, root: RouteId)
    requires ChoiceExact(choice, values, root)
    ensures |choice.warnings| <= 1 && forall warning :: warning in choice.warnings <==> FallbackWarning(values, root, warning)
  {
  }

  lemma ExecutionExact(base: PathBase, view: View, query: Query, location: Location)
    requires ValidBase(base) && ParseQuery(location.search) == Some(query)
    ensures ExecutionOutcome(ParseExecutionRoute(base, view, query, location), location, base, view)
  {
    ExecutionAccepted(base, view, query, location);
    var r := ParseExecutionRoute(base, view, query, location);
    if r.Match? {
      hide ExecutionMatched;
      ExecutionMatchExact(base, view, query, location);
    }
    hide Serialize, ValidId, ParseFocusReference, Lookup, ChooseConversation, UnsupportedQueryWarnings, ParseQuery;
  }

  // ---------- Every location ----------

  ghost predicate DestinationOutcome(r: ParseResult, location: Location, base: PathBase, suffix: seq<Str>)
    requires ValidBase(base)
  {
    if suffix != [] && suffix[0] == CONVERSATION then ConversationOutcome(r, location, base, suffix)
    else if |suffix| == 2 && suffix[0] == EXECUTION && suffix[1] in {OVERVIEW, ACTIVITY, HANDOFFS} then
      exists view :: suffix[1] == ViewName(view) && ExecutionOutcome(r, location, base, view)
    else r == Unavailable(InvalidPath, location.requestedUrl, Some(ToRootConversation(base)))
  }

  /** Where an URL whose path does not decode leads back to, if its beginning does. */
  ghost predicate PartialRecovery(backTo: Option<Recovery>, raw: seq<Str>) {
    match DecodePathBase(raw)
    case None => backTo.None?
    case Some(base) =>
      var next := At(raw, base.suffixOffset);
      && (backTo.Some? <==> next == Some(CONVERSATION) || next == Some(EXECUTION))
      && (next == Some(CONVERSATION) ==> backTo == Some(ToRootConversation(base)))
      && (next == Some(EXECUTION) ==> backTo == Some(ToRootOutline(base)))
  }

  ghost predicate Outcome(r: ParseResult, location: Location) {
    var raw := Split(location.pathname, SLASH);
    if !InWorkspace(raw) then r.NoRoute?
    else if !Decodes(raw) then
      r.Unavailable? && r.issue == InvalidPathEncoding && r.requestedUrl == location.requestedUrl && PartialRecovery(r.backTo, raw)
    else
      match DecodePathBase(raw)
      case None => r == Unavailable(InvalidPath, location.requestedUrl, None)
      case Some(base) => base.suffixOffset <= |raw| && DestinationOutcome(r, location, base, raw[base.suffixOffset..])
  }

  lemma DestinationExact(base: PathBase, raw: seq<Str>, decoded: seq<Str>, location: Location)
    requires ValidBase(base) && base.suffixOffset <= |raw| && DecodePathSegments(raw) == Some(decoded)
    ensures DestinationOutcome(ParseDestination(base, raw, decoded, location), location, base, raw[base.suffixOffset..])
  {
    var suffix := raw[base.suffixOffset..];
    TokensDistinct();
    if suffix != [] && suffix[0] == CONVERSATION {
      ConversationExact(base, raw, decoded, location);
      hide ConversationOutcome, ParseConversationRoute;
    } else if |suffix| == 2 && suffix[0] == EXECUTION && ParseView(suffix[1]).Some? {
      var view := ParseView(suffix[1]).value;
      ViewExact(suffix[1], view);
      var query := ParseQuery(location.search);
      if query.Some? {
        ExecutionExact(base, view, query.value, location);
      }
      hide ParseExecutionRoute, ExecutionMatched;
      assert ExecutionOutcome(ParseDestination(base, raw, decoded, location), location, base, view);
    }
  }

  /** The parser's answer on every location. */
  lemma ParseExact(location: Location)
    ensures Outcome(ParseLocation(location), location)
    ensures forall base :: DecodePathBase(Split(location.pathname, SLASH)) == Some(base) <==>
              Names(Split(location.pathname, SLASH), base)
  {
    var raw := Split(location.pathname, SLASH);
    hide Serialize, DecodePathBase, ParsePathBase, ParseDestination, DestinationOutcome, OwnsWorkspacePath, Names, Split, InWorkspace;
    OwnedExact(location.pathname);
    forall base
      ensures DecodePathBase(raw) == Some(base) <==> Names(raw, base)
    {
      NamedExact(raw, base);
    }
    var decoded := DecodePathSegments(raw);
    if decoded.Some? {
      PathBasesAgree(raw, decoded.value);
      var base := DecodePathBase(raw);
      if base.Some? {
        DestinationExact(base.value, raw, decoded.value, location);
      }
    }
  }

  // ---------- The parts of a URL ----------

  /** A URL is cut into path, query and fragment in the one way in which the path has neither
      delimiter and the query no fragment. */
  lemma UrlParts(url: Str)
    ensures var l := LocationOf(Url(url));
            && l.pathname + l.search + l.hash == url && l.requestedUrl == url
            && QUESTION !in l.pathname && HASH !in l.pathname && HASH !in l.search
            && (l.search == [] || l.search[0] == QUESTION) && (l.hash == [] || l.hash[0] == HASH)
  {
    CutInThree(url);
    var withoutHash := Before(url, HASH);
    CutAt(url, HASH);
    CutAt(withoutHash, QUESTION);
    hide Before, From, LocationOf;
  }

  /** The string up to the first `c`, and from there on. */
  function Before(s: Str, c: Unit): Str { var i := IndexOf(s, c); if i == -1 then s else s[..i] }
  function From(s: Str, c: Unit): Str { var i := IndexOf(s, c); if i == -1 then [] else s[i..] }

  lemma CutInThree(url: Str)
    ensures var path := Before(url, HASH);
            LocationOf(Url(url)) == Location(Before(path, QUESTION), From(path, QUESTION), From(url, HASH), url)
  {
  }

  lemma CutAt(s: Str, c: Unit)
    ensures Before(s, c) + From(s, c) == s && c !in Before(s, c) && (From(s, c) == [] || From(s, c)[0] == c)
    ensures forall d | d !in s :: d !in Before(s, c) && d !in From(s, c)
  {
  }

  /** A parameter is cut at its first equals sign; without one its value is empty. */
  lemma PairParts(name: Str, value: Str)
    requires EQUALS !in name
    ensures DecodePair(name) == (match DecodeQueryPart(name) case None => None case Some(n) => Some((n, [])))
    ensures DecodePair(name + [EQUALS] + value) ==
            (match DecodeQueryPart(name) case None => None case Some(n) =>
               match DecodeQueryPart(value) case None => None case Some(v) => Some((n, v)))
  {
    FirstIndex(name, EQUALS, value);
    var pair := name + [EQUALS] + value;
    assert pair[..|name|] == name && pair[|name| + 1..] == value;
    assert ReplacePlus([]) == [];
  }

  /** The question mark of a query may be missing. */
  lemma QueryMark(search: Str)
    requires !StartsWith(search, [QUESTION])
    ensures ParseQuery([QUESTION] + search) == ParseQuery(search)
  {
    assert ([QUESTION] + search)[1..] == search;
  }

  /** A query part with its spaces written as plus signs. */
  function FormPart(s: Str): Str
    requires WellFormed(s)
    decreases |s|
  {
    if s == [] then []
    else
      EncodePartStep(s);
      if s[0] == SPACE then [PLUS] + FormPart(s[1..])
      else if IsUnreserved(s[0]) then [s[0]] + FormPart(s[1..])
      else
        var (cp, w) := FirstCodePoint(s).value;
        EscapeBytes(Utf8.Encode(cp)) + FormPart(s[w..])
  }

  lemma ReplacePlusAfter(a: Str, b: Str)
    requires PLUS !in a
    ensures ReplacePlus(a + b) == a + ReplacePlus(b)
  {
  }

  /** Query parts are read as forms write them: plus signs stand for spaces. */
  lemma {:induction false} FormPartRead(s: Str)
    requires WellFormed(s)
    ensures DecodeQueryPart(FormPart(s)) == Some(s)
    decreases |s|
  {
    if s != [] {
      EncodePartStep(s);
      if s[0] == SPACE || IsUnreserved(s[0]) {
        FormPartRead(s[1..]);
        FirstUnitRead(FormPart(s)[0], FormPart(s[1..]), s[0], s[1..]);
        assert s == [s[0]] + s[1..];
      } else {
        var (cp, w) := FirstCodePoint(s).value;
        var escaped := EscapeBytes(Utf8.Encode(cp));
        FormPartRead(s[w..]);
        EscapeBytesAlphabet(Utf8.Encode(cp));
        assert PLUS !in escaped;
        ReplacePlusAfter(escaped, FormPart(s[w..]));
        hide DecodeURIComponent;
        DecodeEscaped(cp, ReplacePlus(FormPart(s[w..])));
        assert s == s[..w] + s[w..];
      }
    }
  }

  lemma FirstUnitRead(first: Unit, rest: Str, u: Unit, s: Str)
    requires first == (if u == SPACE then PLUS else u) && u != PERCENT && u != PLUS && DecodeQueryPart(rest) == Some(s)
    ensures DecodeQueryPart([first] + rest) == Some([u] + s)
  {
    assert ReplacePlus([first] + rest)[1..] == ReplacePlus(rest);
  }

  // ---------- The printed URL ----------

  function PrintedBase(scope: Scope, root: RouteId): Str
    requires ValidScope(scope) && ValidId(root)
  {
    match scope
    case Project(id) => Lit("/w/project/") + EncodePart(id) + Lit("/run/") + EncodePart(root)
    case Host => Lit("/w/host/run/") + EncodePart(root)
  }

  /** The parameters of an execution URL as they are written, defaults left out. */
  function PrintedPairs(route: Route): seq<Str>
    requires ValidRoute(route) && route.ExecutionRoute?
  {
    (match route.conversation
     case RootConversation => []
     case AgentConversation(id) => [Lit("conversation=agent%3A") + EncodePart(id)]) +
    (match route.focus
     case RootFocus => []
     case DelegationFocus(id) => [Lit("focus=delegation%3A") + EncodePart(id)]
     case AgentFocus(id) => [Lit("focus=agent%3A") + EncodePart(id)]) +
    (match route.handoff
     case None => []
     case Some(id) => [Lit("handoff=") + EncodePart(id)])
  }

  /** A lower-case word and a colon before an id are written as they are, the colon escaped. */
  lemma {:induction false} EncodeTyped(word: Str, id: Str)
    requires IsWord(word) && WellFormed(id)
    ensures WellFormed(word + [COLON] + id) && EncodePart(word + [COLON] + id) == word + Lit("%3A") + EncodePart(id)
    decreases |word|
  {
    TypedWellFormed(word, id);
    var s := word + [COLON] + id;
    if word == [] {
      assert s == [COLON] + id;
      EncodeColon(id);
    } else {
      EncodePartStep(s);
      hide WellFormed, EncodePart, EscapeBytes;
      assert s[1..] == word[1..] + [COLON] + id;
      EncodeTyped(word[1..], id);
      assert word == [word[0]] + word[1..];
    }
  }

  lemma EncodeColon(id: Str)
    requires WellFormed([COLON] + id) && WellFormed(id)
    ensures EncodePart([COLON] + id) == Lit("%3A") + EncodePart(id)
  {
    EncodePartStep([COLON] + id);
    EscapedColon();
    hide WellFormed, EncodePart, EscapeBytes;
    assert ([COLON] + id)[1..] == id;
  }

  lemma EscapedColon()
    ensures EscapeBytes(Utf8.Encode(COLON)) == Lit("%3A")
  {
    assert Utf8.Encode(COLON) == [0x3A];
    assert EscapeBytes([0x3A]) == EscapeByte(0x3A) + EscapeBytes([0x3A][1..]);
    assert EscapeByte(0x3A) == Lit("%3A");
  }

  lemma PrintedPair(name: Str, kind: Str, id: Str)
    requires IsWord(kind) && WellFormed(id)
    ensures WellFormed(kind + [COLON] + id)
    ensures PrintParameter((name, kind + [COLON] + id)) == name + [EQUALS] + kind + Lit("%3A") + EncodePart(id)
  {
    hide WellFormed, EncodePart;
    EncodeTyped(kind, id);
    assert name + [EQUALS] + (kind + Lit("%3A") + EncodePart(id)) == name + [EQUALS] + kind + Lit("%3A") + EncodePart(id);
  }

  lemma PairTokens()
    ensures CONVERSATION + [EQUALS] + AGENT + Lit("%3A") == Lit("conversation=agent%3A")
    ensures FOCUS + [EQUALS] + AGENT + Lit("%3A") == Lit("focus=agent%3A")
    ensures HANDOFF + [EQUALS] == Lit("handoff=")
  {
  }

  lemma DelegationTokens()
    ensures FOCUS + [EQUALS] + DELEGATION + Lit("%3A") == Lit("focus=delegation%3A")
  {
  }

  lemma ParametersPrinted(route: Route)
    requires ValidRoute(route) && route.ExecutionRoute?
    requires forall i | 0 <= i < |Parameters(route)| :: WellFormed(Parameters(route)[i].1)
    ensures PrintParameters(Parameters(route)) == PrintedPairs(route)
  {
    PairTokens();
    DelegationTokens();
    QueryTokens();
    hide WellFormed, EncodePart, IsWord;
    match route.conversation {
      case RootConversation =>
      case AgentConversation(id) => PrintedPair(CONVERSATION, AGENT, id);
    }
    match route.focus {
      case RootFocus =>
      case DelegationFocus(id) => PrintedPair(FOCUS, DELEGATION, id);
      case AgentFocus(id) => PrintedPair(FOCUS, AGENT, id);
    }
  }

  lemma JoinFirst(first: Str, rest: seq<Str>)
    requires rest != []
    ensures Join([first] + rest, SLASH) == first + [SLASH] + Join(rest, SLASH)
  {
    assert ([first] + rest)[1..] == rest;
  }

  lemma JoinHost(root: Str, rest: seq<Str>)
    requires rest != []
    ensures Join([EMPTY, W, HOST, RUN, root] + rest, SLASH) == Lit("/w/host/run/") + root + [SLASH] + Join(rest, SLASH)
  {
    hide Join;
    JoinFirst(root, rest);
    JoinFirst(RUN, [root] + rest);
    JoinFirst(HOST, [RUN] + ([root] + rest));
    JoinFirst(W, [HOST] + ([RUN] + ([root] + rest)));
    JoinFirst(EMPTY, [W] + ([HOST] + ([RUN] + ([root] + rest))));
    assert [EMPTY, W, HOST, RUN, root] + rest == [EMPTY] + ([W] + ([HOST] + ([RUN] + ([root] + rest))));
    assert Lit("/w/host/run/") == [SLASH] + W + [SLASH] + HOST + [SLASH] + RUN + [SLASH];
  }

  lemma JoinProject(id: Str, root: Str, rest: seq<Str>)
    requires rest != []
    ensures Join([EMPTY, W, PROJECT, id, RUN, root] + rest, SLASH) ==
            Lit("/w/project/") + id + Lit("/run/") + root + [SLASH] + Join(rest, SLASH)
  {
    hide Join;
    JoinFirst(root, rest);
    JoinFirst(RUN, [root] + rest);
    JoinFirst(id, [RUN] + ([root] + rest));
    JoinFirst(PROJECT, [id] + ([RUN] + ([root] + rest)));
    JoinFirst(W, [PROJECT] + ([id] + ([RUN] + ([root] + rest))));
    JoinFirst(EMPTY, [W] + ([PROJECT] + ([id] + ([RUN] + ([root] + rest)))));
    assert [EMPTY, W, PROJECT, id, RUN, root] + rest == [EMPTY] + ([W] + ([PROJECT] + ([id] + ([RUN] + ([root] + rest)))));
    assert Lit("/w/project/") == [SLASH] + W + [SLASH] + PROJECT + [SLASH] && Lit("/run/") == [SLASH] + RUN + [SLASH];
  }

  function PrintedDestination(route: Route): Str
    requires ValidRoute(route)
  {
    match route
    case ConversationRoute(_, _, _) => Lit("/conversation/") + EncodePart(MessageRecipient(route))
    case ExecutionRoute(_, _, view, _, _, _) => Lit("/execution/") + ViewName(view)
  }

  function PrintedQuery(route: Route): Str
    requires ValidRoute(route)
  {
    if route.ConversationRoute? || PrintedPairs(route) == [] then []
    else [QUESTION] + Join(PrintedPairs(route), AMPERSAND)
  }

  lemma BasePrinted(scope: Scope, root: RouteId, rest: seq<Str>)
    requires ValidScope(scope) && ValidId(root) && rest != []
    ensures Join(ScopeSegments(scope, root) + rest, SLASH) == PrintedBase(scope, root) + [SLASH] + Join(rest, SLASH)
  {
    hide EncodePart, WellFormed, Join;
    match scope
    case Project(id) => JoinProject(EncodePart(id), EncodePart(root), rest);
    case Host => JoinHost(EncodePart(root), rest);
  }

  lemma TwoJoined(base: Str, first: Str, second: Str)
    ensures base + [SLASH] + Join([first, second], SLASH) == base + ([SLASH] + first + [SLASH] + second)
  {
    assert [first, second][1..] == [second];
  }

  lemma PathPrinted(route: Route)
    requires ValidRoute(route)
    ensures Join(PathSegments(route), SLASH) == PrintedBase(route.scope, route.rootSessionId) + PrintedDestination(route)
  {
    DestinationTokens();
    var base := PrintedBase(route.scope, route.rootSessionId);
    hide EncodePart, WellFormed, ViewName, Join, ScopeSegments, PrintedBase, Lit;
    match route
    case ConversationRoute(_, _, _) =>
      var id := EncodePart(MessageRecipient(route));
      BasePrinted(route.scope, route.rootSessionId, [CONVERSATION, id]);
      TwoJoined(base, CONVERSATION, id);
    case ExecutionRoute(_, _, view, _, _, _) =>
      BasePrinted(route.scope, route.rootSessionId, [EXECUTION, ViewName(view)]);
      TwoJoined(base, EXECUTION, ViewName(view));
  }

  lemma DestinationTokens()
    ensures [SLASH] + CONVERSATION + [SLASH] == Lit("/conversation/") && [SLASH] + EXECUTION + [SLASH] == Lit("/execution/")
  {
  }

  lemma QueryPrinted(route: Route)
    requires ValidRoute(route)
    ensures Search(route) == PrintedQuery(route)
  {
    ParametersWellFormed(route);
    hide EncodePart, WellFormed, Join;
    if route.ExecutionRoute? {
      ParametersPrinted(route);
      assert |PrintParameters(Parameters(route))| == |Parameters(route)|;
      hide PrintedPairs, PrintParameters, Parameters;
    }
  }

  /** The canonical URL, character for character: scope, root and destination in the path, and of
      an execution route the conversation, the focus and the handoff, in this order, unless they
      are the defaults. */
  lemma PrintedUrl(route: Route)
    requires ValidRoute(route)
    ensures Serialize(route) == PrintedBase(route.scope, route.rootSessionId) + PrintedDestination(route) + PrintedQuery(route)
  {
    hide PrintedBase, PrintedDestination, PrintedQuery, Search, PathSegments, Join;
    PathPrinted(route);
    QueryPrinted(route);
  }

  // ---------- Route ids ----------

  /** `value.trim()` */
  function Trim(s: Str): Str
    decreases |s|
  {
    if s == [] then []
    else if IsTrimmed(s[0]) then Trim(s[1..])
    else if IsTrimmed(s[|s| - 1]) then Trim(s[..|s| - 1])
    else s
  }

  lemma {:induction false} TrimEmpty(s: Str)
    ensures Trim(s) == [] <==> forall i | 0 <= i < |s| :: IsTrimmed(s[i])
    decreases |s|
  {
    if s != [] {
      if IsTrimmed(s[0]) {
        TrimEmpty(s[1..]);
        assert forall i | 0 < i < |s| :: s[i] == s[1..][i - 1];
      } else if IsTrimmed(s[|s| - 1]) {
        TrimEmpty(s[..|s| - 1]);
        assert s[..|s| - 1] != [] && s[..|s| - 1][0] == s[0];
      }
    }
  }

  /** A route id is a well-formed string that is not blank, not a dot segment and free of slashes,
      backslashes and control characters. */
  lemma ValidIdExact(id: Str)
    ensures ValidId(id) <==>
            && EncodeURIComponent(id).Some? && Trim(id) != [] && id != Lit(".") && id != Lit("..")
            && SLASH !in id && 0x5C !in id && forall i | 0 <= i < |id| :: 0x20 <= id[i] < 0x7F || 0xA0 <= id[i]
  {
    TrimEmpty(id);
    hide IsTrimmed, EncodeURIComponent;
  }
}
