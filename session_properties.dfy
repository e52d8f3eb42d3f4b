/**
  What the bridge session guarantees, and the quirks it has, stated over the
  specification in `Session`: request correlation, fan-out, height updates,
  ignored messages and the lifecycle.
 */
module SessionProperties {
  import opened Codec
  import opened Session

  // ---------------------------------------------------------------------------
  // Outbound commands

  lemma {:induction false} OutboundAppend(a: seq<Effect>, b: seq<Effect>)
    ensures Outbound(a + b) == Outbound(a) + Outbound(b)
  {
    if a == [] {
      assert a + b == b;
    } else {
      assert (a + b)[1..] == a[1..] + b;
      OutboundAppend(a[1..], b);
    }
  }

  /**
    `_sendAction` posts exactly one frame when the WebView ref is set, and that
    frame decodes back to the type, name and data it was given; without the
    ref nothing is sent. Nothing else changes.
   */
  lemma SendActionPostsOneFrame(s: State, tag: Value, name: Value, data: Value)
    ensures var s' := SendAction(s, tag, name, data);
      && s'.(trace := s.trace) == s
      && (s.bridgeAttached ==>
            && Outbound(s'.trace) == Outbound(s.trace) + [Encode(tag, name, data)]
            && Decode(Json(Outbound(s'.trace)[|Outbound(s.trace)|])) == Envelope(tag, name, data))
      && (!s.bridgeAttached ==> s' == s)
  {
    var s' := SendAction(s, tag, name, data);
    if s.bridgeAttached {
      OutboundAppend(s.trace, [Posted(Encode(tag, name, data))]);
      assert Outbound([Posted(Encode(tag, name, data))]) == [Encode(tag, name, data)];
    }
  }

  // ---------------------------------------------------------------------------
  // Reachable states

  lemma InitialIsValid(props: Props, template: string)
    ensures Valid(Initial(props, template))
  {
  }

  lemma OnMessagePreservesValid(s: State, raw: Raw)
    requires Valid(s)
    ensures Valid(OnMessage(s, raw))
  {
    match Decode(raw)
    case Malformed =>
    case Envelope(tag, _, data) =>
      match Classify(tag)
      case None =>
      case Some(m) => DispatchPreservesValid(s, m, data);
  }

  lemma DispatchPreservesValid(s: State, m: Message, data: Value)
    requires Valid(s)
    ensures Valid(Dispatch(s, m, data))
  {
    if m == ContentHtmlResponse {
      ResponsePreservesValid(s, data);
    } else {
      ValidIgnoresEffects(s, Dispatch(s, m, data));
    }
  }

  /** A step that leaves the request slot, the handles and the promises' count alone and arms no timer keeps `Valid`. */
  lemma ValidIgnoresEffects(s: State, s': State)
    requires Valid(s)
    requires s'.contentResolve == s.contentResolve && s'.contentReject == s.contentReject
    requires |s'.futures| == |s.futures| && s'.pendingContentHtml == s.pendingContentHtml
    requires s'.intervalHeight == s.intervalHeight && s'.nextHandle == s.nextHandle
    requires s'.timers.Keys <= s.timers.Keys
    ensures Valid(s')
  {
  }

  lemma ResponsePreservesValid(s: State, data: Value)
    requires Valid(s)
    ensures Valid(OnContentHtmlResponse(s, data))
  {
  }

  lemma StepPreservesValid(s: State, e: Event)
    requires Valid(s)
    ensures Valid(Step(s, e))
  {
    match e
    case Receive(raw) => OnMessagePreservesValid(s, raw);
    case Fire(h) => FireTimerPreservesValid(s, h);
    case Load => InitPreservesValid(s);
    case RequestContent => RequestPreservesValid(s);
    case _ => ValidIgnoresEffects(s, Step(s, e));
  }

  lemma FireTimerPreservesValid(s: State, h: Handle)
    requires Valid(s)
    ensures Valid(FireTimer(s, h))
  {
  }

  lemma InitPreservesValid(s: State)
    requires Valid(s)
    ensures Valid(Init(s))
  {
  }

  lemma RequestPreservesValid(s: State)
    requires Valid(s)
    ensures Valid(GetContentHtml(s))
  {
  }

  lemma {:induction false} RunPreservesValid(s: State, evs: seq<Event>)
    requires Valid(s)
    ensures Valid(Run(s, evs))
    decreases |evs|
  {
    if evs != [] {
      StepPreservesValid(s, evs[0]);
      RunPreservesValid(Step(s, evs[0]), evs[1..]);
    }
  }

  /** In every reachable state only the most recent request can still be settled by the session. */
  lemma OnlyLatestRequestIsLive(props: Props, template: string, evs: seq<Event>)
    ensures var s := Run(Initial(props, template), evs);
      && s.contentResolve == s.contentReject
      && (s.contentResolve.Some? ==> s.contentResolve.value == |s.futures| - 1)
  {
    InitialIsValid(props, template);
    RunPreservesValid(Initial(props, template), evs);
  }

  // ---------------------------------------------------------------------------
  // Request correlation

  /**
    `getContentHtml` posts exactly one `(content, postHtml)` frame, creates a
    pending promise, and points resolve, reject and the timer handle at it. No
    earlier promise is settled and no earlier timer is cleared.
   */
  lemma RequestOverwritesSlot(s: State)
    requires Valid(s)
    ensures var s' := GetContentHtml(s); var p := |s.futures|;
      && s'.futures == s.futures + [Pending]
      && s'.contentResolve == Some(p) && s'.contentReject == Some(p)
      && s'.pendingContentHtml == Some(s.nextHandle)
      && s.nextHandle !in s.timers
      && s'.timers == s.timers[s.nextHandle := ContentTimeout(CONTENT_TIMEOUT_MS)]
      && Outbound(s'.trace) == Outbound(s.trace) +
           (if s.bridgeAttached then [Encode(ActionTag(Content), Str("postHtml"), Undefined)] else [])
      && |s'.trace| == |s.trace| + (if s.bridgeAttached then 1 else 0)
      && s'.(futures := s.futures, contentResolve := s.contentResolve, contentReject := s.contentReject,
             pendingContentHtml := s.pendingContentHtml, timers := s.timers, nextHandle := s.nextHandle,
             trace := s.trace) == s
  {
    var p := |s.futures|;
    var s1 := s.(futures := s.futures + [Pending], contentResolve := Some(p), contentReject := Some(p));
    SendActionPostsOneFrame(s1, ActionTag(Content), Str("postHtml"), Undefined);
  }

  /**
    A `CONTENT_HTML_RESPONSE` while resolve is set resolves that promise with
    the message's data (unless it already settled) and clears resolve, reject
    and the timer handle, clearing the timer too. With no resolver set, nothing
    changes.
   */
  lemma ResponseSettlesCurrentRequest(s: State, raw: Raw)
    requires Valid(s)
    requires Decode(raw).Envelope? && Classify(Decode(raw).tag) == Some(ContentHtmlResponse)
    ensures var s' := OnMessage(s, raw); var d := Decode(raw).data;
      && (s.contentResolve.None? ==> s' == s)
      && (s.contentResolve.Some? ==>
            var i := s.contentResolve.value;
            && s'.futures == s.futures[i := if s.futures[i].Pending? then Resolved(d) else s.futures[i]]
            && s'.contentResolve.None? && s'.contentReject.None? && s'.pendingContentHtml.None?
            && s'.timers == s.timers - {s.pendingContentHtml.value}
            && s'.(futures := s.futures, contentResolve := s.contentResolve, contentReject := s.contentReject,
                   pendingContentHtml := s.pendingContentHtml, timers := s.timers) == s)
  {
  }

  /**
    When a request timer fires it rejects whichever promise reject currently
    belongs to, with "timeout", whatever request armed the timer. It leaves
    resolve, reject and the timer handle as they are.
   */
  lemma TimeoutRejectsCurrentRequest(s: State, h: Handle)
    requires h in s.timers && s.timers[h].ContentTimeout?
    ensures var s' := FireTimer(s, h);
      && s'.contentResolve == s.contentResolve && s'.contentReject == s.contentReject
      && s'.pendingContentHtml == s.pendingContentHtml
      && s'.timers == s.timers - {h}
      && |s'.futures| == |s.futures|
      && (forall i :: 0 <= i < |s.futures| && Some(i) != s.contentReject ==> s'.futures[i] == s.futures[i])
      && (s.contentReject.Some? && s.contentReject.value < |s.futures| ==>
            var i := s.contentReject.value;
            s'.futures[i] == if s.futures[i].Pending? then Rejected(Str("timeout")) else s.futures[i])
      && s'.(futures := s.futures, timers := s.timers) == s
  {
  }

  /** A response that arrives before the timeout resolves the request, and its timer can no longer fire. */
  lemma ResponseBeforeTimeout(s: State, d: Value)
    requires Valid(s)
    ensures var p := |s.futures|;
      var s1 := OnMessage(GetContentHtml(s), InboundFrame(ContentHtmlResponse, d));
      && s1.futures[p] == Resolved(d)
      && s.nextHandle !in s1.timers
      && FireTimer(s1, s.nextHandle) == s1
  {
    RequestOverwritesSlot(s);
    ResponseSettlesCurrentRequest(GetContentHtml(s), InboundFrame(ContentHtmlResponse, d));
  }

  /**
    The timer of an earlier request rejects the later request that overwrote
    it, while the earlier promise stays pending; the slot stays occupied.
   */
  lemma StaleTimeoutRejectsNewerRequest(s: State)
    ensures var p := |s.futures|;
      var s3 := FireTimer(GetContentHtml(GetContentHtml(s)), s.nextHandle);
      && s3.futures[p] == Pending
      && s3.futures[p + 1] == Rejected(Str("timeout"))
      && s3.contentResolve == Some(p + 1) && s3.contentReject == Some(p + 1)
  {
  }

  /**
    After a timeout the slot is still occupied, so a late response clears it,
    but the promise, already rejected, settles no further.
   */
  lemma ResponseAfterTimeoutSettlesNothing(s: State, d: Value)
    ensures var p := |s.futures|;
      var s1 := FireTimer(GetContentHtml(s), s.nextHandle);
      var s2 := OnMessage(s1, InboundFrame(ContentHtmlResponse, d));
      && s1.futures[p] == Rejected(Str("timeout"))
      && s1.contentResolve == Some(p)
      && s2.futures == s1.futures
      && s2.contentResolve.None? && s2.contentReject.None? && s2.pendingContentHtml.None?
  {
    var p := |s.futures|;
    var s0 := GetContentHtml(s);
    assert s0.contentResolve == Some(p) && s0.contentReject == Some(p) && s0.futures[p] == Pending;
    assert s0.timers[s.nextHandle] == ContentTimeout(CONTENT_TIMEOUT_MS);
    TimeoutRejectsCurrentRequest(s0, s.nextHandle);
  }

  /** One step changes no promise but the one resolve or reject belongs to, and never points them back at an older one. */
  lemma StepKeepsUnreferencedFuture(s: State, e: Event, i: nat)
    requires i < |s.futures| && s.contentResolve != Some(i) && s.contentReject != Some(i)
    ensures var s' := Step(s, e);
      && |s'.futures| >= |s.futures| && s'.futures[i] == s.futures[i]
      && s'.contentResolve != Some(i) && s'.contentReject != Some(i)
  {
    match e
    case Receive(raw) => OnMessageFutures(s, raw);
    case Fire(h) =>
    case RequestContent =>
    case _ => StepFuturesUntouched(s, e);
  }

  /** One step never changes a promise that has settled. */
  lemma StepKeepsSettledFuture(s: State, e: Event, i: nat)
    requires i < |s.futures| && s.futures[i].Settled()
    ensures |Step(s, e).futures| >= |s.futures| && Step(s, e).futures[i] == s.futures[i]
  {
    match e
    case Receive(raw) => OnMessageFutures(s, raw);
    case Fire(h) =>
    case RequestContent =>
    case _ => StepFuturesUntouched(s, e);
  }

  /** Only a response can change the promises or the slot among inbound messages. */
  lemma OnMessageFutures(s: State, raw: Raw)
    ensures var s' := OnMessage(s, raw);
      || (s'.futures == s.futures && s'.contentResolve == s.contentResolve && s'.contentReject == s.contentReject)
      || (s.contentResolve.Some? && s'.contentResolve.None? && s'.contentReject.None?
          && s'.futures == Resolve(s.futures, s.contentResolve.value, Decode(raw).data))
  {
    match Decode(raw)
    case Malformed =>
    case Envelope(tag, _, data) =>
      match Classify(tag)
      case None =>
      case Some(ContentHtmlResponse) =>
      case Some(Log) =>
      case Some(SelectionChange) =>
      case Some(ContentFocused) =>
      case Some(OffsetHeight) =>
  }

  /** Events other than a message, a timer and a request leave the promises and the slot alone. */
  lemma StepFuturesUntouched(s: State, e: Event)
    requires !e.Receive? && !e.Fire? && !e.RequestContent?
    ensures var s' := Step(s, e);
      s'.futures == s.futures && s'.contentResolve == s.contentResolve && s'.contentReject == s.contentReject
  {
    match e
    case BridgeRef(_) =>
    case Load =>
    case Unmount =>
    case RegisterSelectionListener(_) =>
    case RegisterFocusListener(_) =>
    case SetContent(_) =>
    case Blur =>
    case Focus =>
    case AddImage(_) =>
  }

  /** Settle-once: whatever happens next, a settled promise keeps its outcome. */
  lemma {:induction false} SettledFutureIsFinal(s: State, evs: seq<Event>, i: nat)
    requires i < |s.futures| && s.futures[i].Settled()
    ensures i < |Run(s, evs).futures| && Run(s, evs).futures[i] == s.futures[i]
    decreases |evs|
  {
    if evs != [] {
      StepKeepsSettledFuture(s, evs[0], i);
      SettledFutureIsFinal(Step(s, evs[0]), evs[1..], i);
    }
  }

  /** A promise that resolve and reject no longer belong to is never settled by anything that follows. */
  lemma {:induction false} AbandonedFutureIsFrozen(s: State, evs: seq<Event>, i: nat)
    requires i < |s.futures| && s.contentResolve != Some(i) && s.contentReject != Some(i)
    ensures i < |Run(s, evs).futures| && Run(s, evs).futures[i] == s.futures[i]
    decreases |evs|
  {
    if evs != [] {
      StepKeepsUnreferencedFuture(s, evs[0], i);
      AbandonedFutureIsFrozen(Step(s, evs[0]), evs[1..], i);
    }
  }

  /** A request overwritten by a second `getContentHtml` stays pending forever. */
  lemma OverwrittenRequestNeverSettles(s: State, evs: seq<Event>)
    ensures var p := |s.futures|;
      var s2 := GetContentHtml(GetContentHtml(s));
      p < |Run(s2, evs).futures| && Run(s2, evs).futures[p] == Pending
  {
    AbandonedFutureIsFrozen(GetContentHtml(GetContentHtml(s)), evs, |s.futures|);
  }

  /**
    `Valid`, and the timers behind the two handle fields are the ones they
    were armed for; above all, while the current request is pending its
    timeout is still armed.
   */
  ghost predicate Live(s: State) {
    && Valid(s)
    && (s.intervalHeight.Some? && s.intervalHeight.value in s.timers ==>
          s.timers[s.intervalHeight.value].HeightPoll?)
    && (s.pendingContentHtml.Some? && s.pendingContentHtml.value in s.timers ==>
          s.timers[s.pendingContentHtml.value].ContentTimeout?)
    && (s.contentReject.Some? && s.contentReject.value < |s.futures| && s.futures[s.contentReject.value].Pending? ==>
          s.pendingContentHtml.Some? && s.pendingContentHtml.value in s.timers)
  }

  /** A step that leaves the request slot, the promises, both handle fields and the timers alone keeps `Live`. */
  lemma LiveIgnoresEffects(s: State, s': State)
    requires Live(s)
    requires s'.contentResolve == s.contentResolve && s'.contentReject == s.contentReject
    requires s'.futures == s.futures && s'.pendingContentHtml == s.pendingContentHtml
    requires s'.intervalHeight == s.intervalHeight && s'.nextHandle == s.nextHandle
    requires s'.timers == s.timers
    ensures Live(s')
  {
  }

  lemma LiveDispatch(s: State, m: Message, data: Value)
    requires Live(s)
    ensures Live(Dispatch(s, m, data))
  {
    if m == ContentHtmlResponse {
      ResponsePreservesValid(s, data);
    } else {
      LiveIgnoresEffects(s, Dispatch(s, m, data));
    }
  }

  lemma LiveOnMessage(s: State, raw: Raw)
    requires Live(s)
    ensures Live(OnMessage(s, raw))
  {
    match Decode(raw)
    case Malformed =>
    case Envelope(tag, _, data) =>
      match Classify(tag)
      case None =>
      case Some(m) => LiveDispatch(s, m, data);
  }

  lemma LiveFireTimer(s: State, h: Handle)
    requires Live(s)
    ensures Live(FireTimer(s, h))
  {
    FireTimerPreservesValid(s, h);
  }

  lemma LiveInit(s: State)
    requires Live(s)
    ensures Live(Init(s))
  {
    InitPreservesValid(s);
    InitSequence(s);
  }

  lemma LiveRequest(s: State)
    requires Live(s)
    ensures Live(GetContentHtml(s))
  {
    RequestOverwritesSlot(s);
  }

  lemma LiveUnmount(s: State)
    requires Live(s)
    ensures Live(ComponentWillUnmount(s))
  {
  }

  lemma LiveStep(s: State, e: Event)
    requires Live(s)
    ensures Live(Step(s, e))
  {
    match e
    case Receive(raw) => LiveOnMessage(s, raw);
    case Fire(h) => LiveFireTimer(s, h);
    case Load => LiveInit(s);
    case RequestContent => LiveRequest(s);
    case Unmount => LiveUnmount(s);
    case _ => LiveIgnoresEffects(s, Step(s, e));
  }

  lemma {:induction false} LiveRun(s: State, evs: seq<Event>)
    requires Live(s)
    ensures Live(Run(s, evs))
    decreases |evs|
  {
    if evs != [] {
      LiveStep(s, evs[0]);
      LiveRun(Step(s, evs[0]), evs[1..]);
    }
  }

  /**
    A request is never left with neither outcome: in every reachable state,
    while the current promise is pending its timeout is armed and would
    reject it with "timeout", and a `CONTENT_HTML_RESPONSE` would resolve it.
   */
  lemma CurrentRequestCanAlwaysSettle(props: Props, template: string, evs: seq<Event>, i: nat, d: Value)
    ensures var s := Run(Initial(props, template), evs);
      s.contentResolve == Some(i) && i < |s.futures| && s.futures[i].Pending? ==>
        && s.pendingContentHtml.Some? && s.pendingContentHtml.value in s.timers
        && FireTimer(s, s.pendingContentHtml.value).futures[i] == Rejected(Str("timeout"))
        && OnMessage(s, InboundFrame(ContentHtmlResponse, d)).futures[i] == Resolved(d)
  {
    var s := Run(Initial(props, template), evs);
    InitialIsValid(props, template);
    LiveRun(Initial(props, template), evs);
    if s.contentResolve == Some(i) && i < |s.futures| && s.futures[i].Pending? {
      TimeoutRejectsCurrentRequest(s, s.pendingContentHtml.value);
      ResponseSettlesCurrentRequest(s, InboundFrame(ContentHtmlResponse, d));
    }
  }

  // ---------------------------------------------------------------------------
  // Height

  /**
    An `OFFSET_HEIGHT` message stores its value as the height, updating the
    stored height only when the value is not `===` to it, and calls
    `onHeightChange` (when given) on every such message.
   */
  lemma OffsetHeightUpdate(s: State, raw: Raw)
    requires Decode(raw).Envelope? && Classify(Decode(raw).tag) == Some(OffsetHeight)
    ensures var s' := OnMessage(s, raw); var d := Decode(raw).data;
      && s'.height == d
      && (StrictEquals(d, s.height) ==> s'.(trace := s.trace) == s)
      && (!StrictEquals(d, s.height) ==> s'.(trace := s.trace) == s.(height := d))
      && s'.trace == s.trace + (if s.props.hasOnHeightChange then [HeightChangeCalled] else [])
  {
  }

  /** The same height twice: `onHeightChange` runs both times; the second stores nothing for a plain value. */
  lemma RepeatedHeightNotifiesEachTime(s: State, d: Value)
    requires s.props.hasOnHeightChange
    ensures var s1 := OnMessage(s, InboundFrame(OffsetHeight, d));
      var s2 := OnMessage(s1, InboundFrame(OffsetHeight, d));
      && s2.height == d
      && s2.trace == s.trace + [HeightChangeCalled, HeightChangeCalled]
      && (!d.Arr? && !d.Obj? ==> s2.(trace := s1.trace) == s1)
  {
    OffsetHeightUpdate(s, InboundFrame(OffsetHeight, d));
    OffsetHeightUpdate(OnMessage(s, InboundFrame(OffsetHeight, d)), InboundFrame(OffsetHeight, d));
  }

  /** Before any height arrives the container is `minHeight` tall. */
  lemma InitialContainerHeight(props: Props, template: string)
    ensures ContainerHeight(Initial(props, template)) == props.minHeight
  {
  }

  /** After an `OFFSET_HEIGHT` the container takes that height, or `minHeight` when it is falsy. */
  lemma ContainerHeightFollowsOffset(s: State, raw: Raw)
    requires Decode(raw).Envelope? && Classify(Decode(raw).tag) == Some(OffsetHeight)
    ensures var d := Decode(raw).data;
      ContainerHeight(OnMessage(s, raw)) == if Truthy(d) then d else s.props.minHeight
  {
    OffsetHeightUpdate(s, raw);
  }

  // ---------------------------------------------------------------------------
  // Listener fan-out

  /** With no listener throwing, each listener is called once, in registration order. */
  lemma FanOutCallsEachInOrder(ls: seq<Listener>, arg: Arg)
    requires forall j :: 0 <= j < |ls| ==> !ls[j].Throws(arg)
    ensures |FanOut(ls, arg)| == |ls|
    ensures forall j :: 0 <= j < |ls| ==> FanOut(ls, arg)[j] == Notified(ls[j].id, arg)
  {
    assert ls[..|ls|] == ls;
  }

  /** A listener that throws is called, and stops every listener after it. */
  lemma FanOutStopsAtThrower(ls: seq<Listener>, arg: Arg, k: nat)
    requires k < |ls| && ls[k].Throws(arg)
    requires forall j :: 0 <= j < k ==> !ls[j].Throws(arg)
    ensures |FanOut(ls, arg)| == k + 1
    ensures forall j :: 0 <= j <= k ==> FanOut(ls, arg)[j] == Notified(ls[j].id, arg)
  {
  }

  function SelectionRegistrations(ls: seq<Listener>): seq<Event> {
    seq(|ls|, i requires 0 <= i < |ls| => RegisterSelectionListener(ls[i]))
  }

  function FocusRegistrations(ls: seq<Listener>): seq<Event> {
    seq(|ls|, i requires 0 <= i < |ls| => RegisterFocusListener(ls[i]))
  }

  /** `registerToolbar` appends at the end of the selection list and changes nothing else. */
  lemma {:induction false} SelectionRegistrationsAppend(s: State, ls: seq<Listener>)
    ensures Run(s, SelectionRegistrations(ls)) == s.(selectionListeners := s.selectionListeners + ls)
    decreases |ls|
  {
    if ls == [] {
      assert s.selectionListeners + ls == s.selectionListeners;
    } else {
      assert SelectionRegistrations(ls)[1..] == SelectionRegistrations(ls[1..]);
      SelectionRegistrationsAppend(RegisterToolbar(s, ls[0]), ls[1..]);
      assert s.selectionListeners + [ls[0]] + ls[1..] == s.selectionListeners + ls;
    }
  }

  /** `setContentFocusHandler` appends at the end of the focus list and changes nothing else. */
  lemma {:induction false} FocusRegistrationsAppend(s: State, ls: seq<Listener>)
    ensures Run(s, FocusRegistrations(ls)) == s.(focusListeners := s.focusListeners + ls)
    decreases |ls|
  {
    if ls == [] {
      assert s.focusListeners + ls == s.focusListeners;
    } else {
      assert FocusRegistrations(ls)[1..] == FocusRegistrations(ls[1..]);
      FocusRegistrationsAppend(SetContentFocusHandler(s, ls[0]), ls[1..]);
      assert s.focusListeners + [ls[0]] + ls[1..] == s.focusListeners + ls;
    }
  }

  /**
    Registering L1..Ln and then receiving `SELECTION_CHANGE` calls every
    selection listener, earlier ones first, each once, with the message's data,
    when none of them throws; nothing else changes.
   */
  lemma SelectionChangeReachesRegistered(s: State, ls: seq<Listener>, raw: Raw)
    requires Decode(raw).Envelope? && Classify(Decode(raw).tag) == Some(SelectionChange)
    requires var all := s.selectionListeners + ls;
      forall j :: 0 <= j < |all| ==> !all[j].Throws(With(Decode(raw).data))
    ensures var s' := OnMessage(Run(s, SelectionRegistrations(ls)), raw);
      var all := s.selectionListeners + ls;
      && s'.trace == s.trace + Notifications(all, With(Decode(raw).data))
      && s'.(trace := s.trace) == s.(selectionListeners := all)
  {
    var all := s.selectionListeners + ls;
    SelectionRegistrationsAppend(s, ls);
    assert all[..|all|] == all;
  }

  /** Receiving `CONTENT_FOCUSED` calls the focus listeners, in order, with no argument. */
  lemma FocusReachesRegistered(s: State, ls: seq<Listener>, raw: Raw)
    requires Decode(raw).Envelope? && Classify(Decode(raw).tag) == Some(ContentFocused)
    requires var all := s.focusListeners + ls;
      forall j :: 0 <= j < |all| ==> !all[j].Throws(NoArg)
    ensures var s' := OnMessage(Run(s, FocusRegistrations(ls)), raw);
      var all := s.focusListeners + ls;
      && s'.trace == s.trace + Notifications(all, NoArg)
      && s'.(trace := s.trace) == s.(focusListeners := all)
  {
    var all := s.focusListeners + ls;
    FocusRegistrationsAppend(s, ls);
    assert all[..|all|] == all;
  }

  // ---------------------------------------------------------------------------
  // Ignored input

  /** Unparseable input, an unrecognised type and `LOG` leave the session exactly as it was. */
  lemma IgnoredMessagesChangeNothing(s: State, raw: Raw)
    requires || Decode(raw).Malformed?
             || Classify(Decode(raw).tag).None?
             || Classify(Decode(raw).tag) == Some(Log)
    ensures OnMessage(s, raw) == s
  {
  }

  // ---------------------------------------------------------------------------
  // Lifecycle

  /**
    `init` sets `isInit`, then posts `(content, setHtml, initialContentHTML)`,
    then calls `editorInitializedCallback` when given, then arms a fresh
    200 ms height poll, leaving every earlier timer armed. When the callback
    throws, `init` stops after calling it: no poll is armed and the handle
    field keeps its value.
   */
  lemma InitSequence(s: State)
    requires Valid(s)
    ensures var s' := Init(s); var h := s.nextHandle;
      && s'.isInit
      && s'.trace == s.trace
           + (if s.bridgeAttached then [Posted(Encode(ActionTag(Content), Str("setHtml"), s.props.initialContentHTML))] else [])
           + (if s.props.hasEditorInitializedCallback then [InitializedCalled] else [])
      && h !in s.timers
      && (InitializedCallbackReturns(s.props) ==>
            && s'.intervalHeight == Some(h)
            && s'.timers == s.timers[h := HeightPoll(HEIGHT_POLL_MS)]
            && s'.nextHandle == h + 1)
      && (!InitializedCallbackReturns(s.props) ==>
            s'.intervalHeight == s.intervalHeight && s'.timers == s.timers && s'.nextHandle == h)
      && s'.(isInit := s.isInit, trace := s.trace, intervalHeight := s.intervalHeight,
             timers := s.timers, nextHandle := s.nextHandle) == s
  {
  }

  /**
    `componentWillUnmount` clears the current poll and nothing else: the
    request slot and its timeout stay, and the handle field keeps its value.
   */
  lemma UnmountClearsOnlyPoll(s: State)
    ensures var s' := ComponentWillUnmount(s);
      && s'.(timers := s.timers) == s
      && (s.intervalHeight.Some? ==>
            s'.timers == s.timers - {s.intervalHeight.value} && FireTimer(s', s.intervalHeight.value) == s')
      && (s.intervalHeight.None? ==> s' == s)
  {
  }

  /**
    A second `init` replaces the poll handle without clearing the first poll.
    Unmounting clears only the second, and React detaches the WebView ref, so
    the first poll stays armed for ever and fires without effect. When the
    initialised callback throws, neither `init` arms a poll.
   */
  lemma ReinitLeaksFirstPoll(s: State)
    requires Valid(s)
    ensures var h := s.nextHandle;
      var s2 := Run(Init(Init(s)), [Unmount, BridgeRef(false)]);
      && !s2.bridgeAttached
      && (InitializedCallbackReturns(s.props) ==>
            && s2.intervalHeight == Some(h + 1)
            && h + 1 !in s2.timers
            && h in s2.timers && s2.timers[h] == HeightPoll(HEIGHT_POLL_MS)
            && FireTimer(s2, h) == s2)
      && (!InitializedCallbackReturns(s.props) ==>
            forall k :: k in s2.timers ==> k in s.timers)
  {
    var s2 := SetBridgeRef(ComponentWillUnmount(Init(Init(s))), false);
    assert Run(Init(Init(s)), [Unmount, BridgeRef(false)]) == s2 by {
      assert [Unmount, BridgeRef(false)][1..] == [BridgeRef(false)];
      assert [BridgeRef(false)][1..] == [];
    }
    ReinitThenUnmount(s);
    if InitializedCallbackReturns(s.props) {
      DetachedPollIsInert(s2, s.nextHandle);
    }
  }

  lemma ReinitThenUnmount(s: State)
    requires Valid(s)
    ensures var h := s.nextHandle;
      var s2 := SetBridgeRef(ComponentWillUnmount(Init(Init(s))), false);
      && !s2.bridgeAttached
      && (InitializedCallbackReturns(s.props) ==>
            && s2.intervalHeight == Some(h + 1)
            && h + 1 !in s2.timers
            && h in s2.timers && s2.timers[h] == HeightPoll(HEIGHT_POLL_MS))
      && (!InitializedCallbackReturns(s.props) ==>
            forall k :: k in s2.timers ==> k in s.timers)
  {
    InitSequence(s);
    InitPreservesValid(s);
    InitSequence(Init(s));
    UnmountClearsOnlyPoll(Init(Init(s)));
  }

  /** A poll that fires while the WebView ref is unset posts nothing and changes nothing. */
  lemma DetachedPollIsInert(s: State, h: Handle)
    requires h in s.timers && s.timers[h].HeightPoll? && !s.bridgeAttached
    ensures FireTimer(s, h) == s
  {
    assert When(false, Posted(Encode(ActionTag(UpdateHeight), Undefined, Undefined))) == [];
  }

  /** Only `init` arms a height poll: without a load event no poll timer ever exists. */
  lemma {:induction false} PollOnlyAfterLoad(s: State, evs: seq<Event>)
    requires forall h :: h in s.timers ==> !s.timers[h].HeightPoll?
    requires forall j :: 0 <= j < |evs| ==> !evs[j].Load?
    ensures forall h :: h in Run(s, evs).timers ==> !Run(s, evs).timers[h].HeightPoll?
    decreases |evs|
  {
    if evs != [] {
      StepArmsNoPoll(s, evs[0]);
      PollOnlyAfterLoad(Step(s, evs[0]), evs[1..]);
    }
  }

  lemma StepArmsNoPoll(s: State, e: Event)
    requires forall h :: h in s.timers ==> !s.timers[h].HeightPoll?
    requires !e.Load?
    ensures forall h :: h in Step(s, e).timers ==> !Step(s, e).timers[h].HeightPoll?
  {
    match e
    case Receive(raw) => OnMessageTimers(s, raw);
    case RequestContent =>
    case _ =>
  }

  /** An inbound message arms no timer: the timers after it are among those before. */
  lemma OnMessageTimers(s: State, raw: Raw)
    ensures var s' := OnMessage(s, raw);
      forall h :: h in s'.timers ==> h in s.timers && s'.timers[h] == s.timers[h]
  {
    match Decode(raw)
    case Malformed =>
    case Envelope(tag, _, data) =>
      match Classify(tag)
      case None =>
      case Some(ContentHtmlResponse) =>
      case Some(Log) =>
      case Some(SelectionChange) =>
      case Some(ContentFocused) =>
      case Some(OffsetHeight) =>
  }
}
