/**
  The host side of the editor bridge, as a pure specification: the state one
  `RichTextEditor` instance keeps, and one function per handler saying what
  that handler does to it. Every handler runs to completion, so an inbound
  message, an API call or a timer firing is one step from a state to the next.

  Effects the session has on the outside world are recorded, in order, in
  `trace`: frames posted to the WebView and calls to the callbacks it was
  given. Promises returned by `getContentHtml` are kept in `futures`; a
  promise's resolve and reject functions are represented by its index there.
  Timers are live handles with a callback kind; time itself is not modelled,
  a timer simply may fire at any step until it is cleared.
 */
module Session {
  import opened Codec
  import Template

  /** Delay of the `getContentHtml` timeout, in milliseconds. */
  const CONTENT_TIMEOUT_MS: nat := 5000
  /** Period of the height poll installed by `init`, in milliseconds. */
  const HEIGHT_POLL_MS: nat := 200

  /** A timer id as returned by `setTimeout` / `setInterval`: never 0, so always truthy. */
  type Handle = h: nat | 0 < h witness 1

  /** A promise: settles at most once. */
  datatype Future = Pending | Resolved(value: Value) | Rejected(reason: Value) {
    predicate Settled() { !Pending? }
  }

  /** `resolve(v)` on promise `i`: has no effect on a promise that already settled. */
  function Resolve(fs: seq<Future>, i: nat, v: Value): seq<Future> {
    if i < |fs| && fs[i].Pending? then fs[i := Resolved(v)] else fs
  }

  /** `reject(e)` on promise `i`: has no effect on a promise that already settled. */
  function Reject(fs: seq<Future>, i: nat, e: Value): seq<Future> {
    if i < |fs| && fs[i].Pending? then fs[i := Rejected(e)] else fs
  }

  /** The argument list a listener is called with. */
  datatype Arg = NoArg | With(v: Value)

  /**
    A listener registered by the application: an identity, and the arguments
    on which it throws. Listeners have no other effect on the session.
   */
  datatype Listener = Listener(id: nat, throwsOn: set<Arg>) {
    predicate Throws(arg: Arg) { arg in throwsOn }
  }

  /** What the session does to the outside world. */
  datatype Effect =
    | Posted(frame: Value)                // webviewBridge.postMessage
    | Notified(listener: nat, arg: Arg)   // a selection or focus listener was called
    | HeightChangeCalled                  // props.onHeightChange()
    | InitializedCalled                   // props.editorInitializedCallback()

  /** A live timer and the callback it will run. */
  datatype Timer = ContentTimeout(delay: nat) | HeightPoll(period: nat)

  /**
    The props the bridge reads. `minHeight`, `backgroundColor` and `color`
    hold their default (200, "#FFF", "#000") when the application gave none.
    `initializedCallbackThrows` says whether `editorInitializedCallback`, when
    given, throws.
   */
  datatype Props = Props(
    initialContentHTML: Value,
    minHeight: Value,
    backgroundColor: string,
    color: string,
    hasOnHeightChange: bool,
    hasEditorInitializedCallback: bool,
    initializedCallbackThrows: bool)

  /** `init` runs to its end: the initialised callback is absent or returns normally. */
  predicate InitializedCallbackReturns(p: Props) {
    !(p.hasEditorInitializedCallback && p.initializedCallbackThrows)
  }

  datatype State = State(
    props: Props,
    html: string,                         // the page given to the WebView
    bridgeAttached: bool,                 // this.webviewBridge is set
    isInit: bool,
    height: Value,
    selectionListeners: seq<Listener>,
    focusListeners: seq<Listener>,
    contentResolve: Option<nat>,          // index of the promise its resolve belongs to
    contentReject: Option<nat>,
    pendingContentHtml: Option<Handle>,
    intervalHeight: Option<Handle>,
    futures: seq<Future>,
    timers: map<Handle, Timer>,           // live timers
    nextHandle: Handle,                   // the id the next timer gets
    trace: seq<Effect>)

  /** The frames posted to the WebView, in order. */
  function Outbound(trace: seq<Effect>): seq<Value> {
    if trace == [] then []
    else (if trace[0].Posted? then [trace[0].frame] else []) + Outbound(trace[1..])
  }

  /** The state the constructor builds. */
  function Initial(props: Props, template: string): State {
    State(props, Template.EditorHtml(template, props.backgroundColor, props.color),
          false, false, Num(0), [], [], None, None, None, None, [], map[], 1, [])
  }

  /** Relations every reachable state satisfies. */
  ghost predicate Valid(s: State) {
    && s.contentResolve == s.contentReject
    && (s.contentResolve.Some? ==> s.contentResolve.value == |s.futures| - 1)
    && (s.pendingContentHtml.Some? <==> s.contentResolve.Some?)
    && (s.pendingContentHtml.Some? ==> s.pendingContentHtml.value < s.nextHandle)
    && (s.intervalHeight.Some? ==> s.intervalHeight.value < s.nextHandle)
    && (forall h :: h in s.timers ==> h < s.nextHandle)
  }

  /** The ref callback of the WebView: React calls it with the view, and with null on unmount. */
  function SetBridgeRef(s: State, attached: bool): State {
    s.(bridgeAttached := attached)
  }

  /** The effect `e` when `c` holds, nothing otherwise: a guarded call such as `cb && cb()`. */
  function When(c: bool, e: Effect): seq<Effect> {
    if c then [e] else []
  }

  /** `_sendAction(type, action, data)`: nothing is posted while the WebView ref is unset. */
  function SendAction(s: State, tag: Value, name: Value, data: Value): State {
    s.(trace := s.trace + When(s.bridgeAttached, Posted(Encode(tag, name, data))))
  }

  /** The height `setWebHeight(v)` leaves stored: `v`, unless it is `===` to the stored one. */
  function StoredHeight(stored: Value, v: Value): Value {
    if !StrictEquals(v, stored) then v else stored
  }

  /** `setWebHeight(height)`. */
  function SetWebHeight(s: State, v: Value): State {
    s.(height := StoredHeight(s.height, v))
  }

  /** The index of the first listener that throws on `arg`, or `|ls|` when none does. */
  function FirstThrower(ls: seq<Listener>, arg: Arg): (k: nat)
    ensures k <= |ls|
    ensures forall j :: 0 <= j < k ==> !ls[j].Throws(arg)
    ensures k < |ls| ==> ls[k].Throws(arg)
  {
    if ls == [] then 0
    else if ls[0].Throws(arg) then 0
    else 1 + FirstThrower(ls[1..], arg)
  }

  /** How many listeners a fan-out calls: up to and including the first that throws. */
  function Invoked(ls: seq<Listener>, arg: Arg): nat {
    var k := FirstThrower(ls, arg);
    if k < |ls| then k + 1 else |ls|
  }

  /** Each listener of `ls`, in order, called once with `arg`. */
  function Notifications(ls: seq<Listener>, arg: Arg): seq<Effect> {
    seq(|ls|, j requires 0 <= j < |ls| => Notified(ls[j].id, arg))
  }

  /**
    `listeners.map(l => l(arg))` inside the `try` of `onMessage`: the calls
    made before a listener throws, that listener's call included.
   */
  function FanOut(ls: seq<Listener>, arg: Arg): seq<Effect> {
    Notifications(ls[..Invoked(ls, arg)], arg)
  }

  /** `clearTimeout(h)` / `clearInterval(h)`: a cleared or spent handle is ignored. */
  function ClearTimer(s: State, h: Handle): State {
    s.(timers := s.timers - {h})
  }

  /** `contentResolve(data)` on promise `i`, then both slot fields are cleared. */
  function SettleRequest(s: State, i: nat, data: Value): State {
    s.(futures := Resolve(s.futures, i, data), contentResolve := None, contentReject := None)
  }

  /** The `CONTENT_HTML_RESPONSE` case of `onMessage`. */
  function OnContentHtmlResponse(s: State, data: Value): State {
    if s.contentResolve.None? then s
    else
      var s1 := SettleRequest(s, s.contentResolve.value, data);
      if s1.pendingContentHtml.Some? then ClearTimer(s1, s1.pendingContentHtml.value).(pendingContentHtml := None)
      else s1
  }

  /** The `OFFSET_HEIGHT` case of `onMessage`. */
  function OnOffsetHeight(s: State, data: Value): State {
    var s1 := SetWebHeight(s, data);
    s1.(trace := s1.trace + When(s.props.hasOnHeightChange, HeightChangeCalled))
  }

  /** The `switch` of `onMessage`: the case for message type `m` with payload `data`. */
  function Dispatch(s: State, m: Message, data: Value): State {
    match m
    case ContentHtmlResponse => OnContentHtmlResponse(s, data)
    case Log => s
    case SelectionChange => s.(trace := s.trace + FanOut(s.selectionListeners, With(data)))
    case ContentFocused => s.(trace := s.trace + FanOut(s.focusListeners, NoArg))
    case OffsetHeight => OnOffsetHeight(s, data)
  }

  /** `onMessage(event)`: anything it throws is caught, so every outcome is a state. */
  function OnMessage(s: State, raw: Raw): State {
    match Decode(raw)
    case Malformed => s
    case Envelope(tag, _, data) =>
      match Classify(tag)
      case None => s
      case Some(m) => Dispatch(s, m, data)
  }

  /** `registerToolbar(listener)`. */
  function RegisterToolbar(s: State, l: Listener): State {
    s.(selectionListeners := s.selectionListeners + [l])
  }

  /** `setContentFocusHandler(listener)`. */
  function SetContentFocusHandler(s: State, l: Listener): State {
    s.(focusListeners := s.focusListeners + [l])
  }

  /** `setContentHTML(html)`. */
  function SetContentHTML(s: State, html: Value): State {
    SendAction(s, ActionTag(Content), Str("setHtml"), html)
  }

  /** `blurContentEditor()`. */
  function BlurContentEditor(s: State): State {
    SendAction(s, ActionTag(Content), Str("blur"), Undefined)
  }

  /** `focusContentEditor()`. */
  function FocusContentEditor(s: State): State {
    SendAction(s, ActionTag(Content), Str("focus"), Undefined)
  }

  /** `insertImage(attributes)`. */
  function InsertImage(s: State, attributes: Value): State {
    SendAction(s, ActionTag(Action.InsertImage), Str("result"), attributes)
  }

  /** `setTimeout` / `setInterval`: timer `t` is armed under the next handle. */
  function ArmTimer(s: State, t: Timer): State {
    s.(timers := s.timers[s.nextHandle := t], nextHandle := s.nextHandle + 1)
  }

  /** `editorInitializedCallback && editorInitializedCallback()`. */
  function CallInitializedCallback(s: State): State {
    s.(trace := s.trace + When(s.props.hasEditorInitializedCallback, InitializedCalled))
  }

  /**
    `init()`, run by the WebView's `onLoad`. A throwing initialised callback
    leaves `init` before `setInterval`: what was done so far stays done, and
    no poll is armed.
   */
  function Init(s: State): State {
    var s2 := CallInitializedCallback(SetContentHTML(s.(isInit := true), s.props.initialContentHTML));
    if !InitializedCallbackReturns(s.props) then s2
    else ArmTimer(s2, HeightPoll(HEIGHT_POLL_MS)).(intervalHeight := Some(s2.nextHandle))
  }

  /** The new promise of `getContentHtml`, at index `|s.futures|`, takes the request slot. */
  function OpenRequest(s: State): State {
    var p := |s.futures|;
    s.(futures := s.futures + [Pending], contentResolve := Some(p), contentReject := Some(p))
  }

  /** `getContentHtml()`: the promise it returns is `futures[|s.futures|]`. */
  function GetContentHtml(s: State): State {
    var s2 := SendAction(OpenRequest(s), ActionTag(Content), Str("postHtml"), Undefined);
    ArmTimer(s2, ContentTimeout(CONTENT_TIMEOUT_MS)).(pendingContentHtml := Some(s2.nextHandle))
  }

  /** The event loop runs the callback of timer `h`; a cleared or spent timer does nothing. */
  function FireTimer(s: State, h: Handle): State {
    if h !in s.timers then s
    else match s.timers[h]
      case ContentTimeout(_) =>
        var s1 := ClearTimer(s, h);
        if s1.contentReject.Some? then s1.(futures := Reject(s1.futures, s1.contentReject.value, Str("timeout")))
        else s1
      case HeightPoll(_) => SendAction(s, ActionTag(UpdateHeight), Undefined, Undefined)
  }

  /** `componentWillUnmount()`. */
  function ComponentWillUnmount(s: State): State {
    if s.intervalHeight.Some? then ClearTimer(s, s.intervalHeight.value) else s
  }

  /** The height `render` gives the container view: `height || minHeight`. */
  function ContainerHeight(s: State): (h: Value)
    ensures Truthy(s.height) ==> h == s.height
    ensures !Truthy(s.height) ==> h == s.props.minHeight
    ensures Truthy(h) <==> Truthy(s.height) || Truthy(s.props.minHeight)
  {
    if Truthy(s.height) then s.height else s.props.minHeight
  }

  /** Everything that can happen to a session. */
  datatype Event =
    | Receive(raw: Raw)
    | Fire(handle: Handle)
    | BridgeRef(attached: bool)
    | Load
    | Unmount
    | RegisterSelectionListener(listener: Listener)
    | RegisterFocusListener(listener: Listener)
    | SetContent(content: Value)
    | Blur
    | Focus
    | AddImage(attributes: Value)
    | RequestContent

  function Step(s: State, e: Event): State {
    match e
    case Receive(raw) => OnMessage(s, raw)
    case Fire(h) => FireTimer(s, h)
    case BridgeRef(a) => SetBridgeRef(s, a)
    case Load => Init(s)
    case Unmount => ComponentWillUnmount(s)
    case RegisterSelectionListener(l) => RegisterToolbar(s, l)
    case RegisterFocusListener(l) => SetContentFocusHandler(s, l)
    case SetContent(c) => SetContentHTML(s, c)
    case Blur => BlurContentEditor(s)
    case Focus => FocusContentEditor(s)
    case AddImage(a) => InsertImage(s, a)
    case RequestContent => GetContentHtml(s)
  }

  function Run(s: State, evs: seq<Event>): State
    decreases |evs|
  {
    if evs == [] then s else Run(Step(s, evs[0]), evs[1..])
  }
}
