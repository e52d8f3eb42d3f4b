/**
  The `RichTextEditor` component as an object: the fields its handlers update
  in place, and one method per handler. Each method is proved to do exactly
  what the corresponding function of `Session` says, so everything proved
  about the specification holds of the object.
 */
module Editor {
  import opened Codec
  import Template
  import Session

  class RichTextEditor {
    const props: Session.Props
    var html: string
    var bridgeAttached: bool
    var isInit: bool
    var height: Value
    var selectionListeners: seq<Session.Listener>
    var focusListeners: seq<Session.Listener>
    var contentResolve: Option<nat>
    var contentReject: Option<nat>
    var pendingContentHtml: Option<Session.Handle>
    var intervalHeight: Option<Session.Handle>
    var futures: seq<Session.Future>
    var timers: map<Session.Handle, Session.Timer>
    var nextHandle: Session.Handle
    var trace: seq<Session.Effect>

    /** The abstract value of the object. */
    function Model(): Session.State
      reads this
    {
      Session.State(props, html, bridgeAttached, isInit, height, selectionListeners, focusListeners,
                    contentResolve, contentReject, pendingContentHtml, intervalHeight, futures,
                    timers, nextHandle, trace)
    }

    constructor (props: Session.Props, template: string)
      ensures Model() == Session.Initial(props, template)
    {
      this.props := props;
      var page := Template.ReplaceFirst(template, Template.BACKGROUND_PLACEHOLDER, props.backgroundColor);
      html := Template.ReplaceFirst(page, Template.TEXT_COLOR_PLACEHOLDER, props.color);
      bridgeAttached := false;
      isInit := false;
      height := Num(0);
      selectionListeners := [];
      focusListeners := [];
      contentResolve, contentReject := None, None;
      pendingContentHtml, intervalHeight := None, None;
      futures := [];
      timers := map[];
      nextHandle := 1;
      trace := [];
    }

    /** The WebView's ref callback. */
    method SetBridgeRef(attached: bool)
      modifies this`bridgeAttached
      ensures Model() == Session.SetBridgeRef(old(Model()), attached)
    {
      bridgeAttached := attached;
    }

    /** `_sendAction(type, action, data)`. */
    method SendAction(tag: Value, name: Value, data: Value)
      modifies this`trace
      ensures Model() == Session.SendAction(old(Model()), tag, name, data)
    {
      if bridgeAttached {
        trace := trace + [Session.Posted(Encode(tag, name, data))];
      }
    }

    /** `setWebHeight(height)`. */
    method SetWebHeight(v: Value)
      modifies this`height
      ensures Model() == Session.SetWebHeight(old(Model()), v)
    {
      if !StrictEquals(v, height) {
        height := v;
      }
    }

    /** Calls each listener of `ls` in order, stopping after the first that throws. */
    method NotifyAll(ls: seq<Session.Listener>, arg: Session.Arg) returns (threw: bool)
      modifies this`trace
      ensures trace == old(trace) + Session.FanOut(ls, arg)
      ensures threw <==> Session.FirstThrower(ls, arg) < |ls|
    {
      var i := 0;
      threw := false;
      while i < |ls| && !threw
        invariant i <= |ls|
        invariant !threw ==> forall j :: 0 <= j < i ==> !ls[j].Throws(arg)
        invariant threw ==> 0 < i && i - 1 == Session.FirstThrower(ls, arg)
        invariant trace == old(trace) + Session.Notifications(ls[..i], arg)
      {
        assert Session.Notifications(ls[..i + 1], arg) == Session.Notifications(ls[..i], arg) + [Session.Notified(ls[i].id, arg)];
        trace := trace + [Session.Notified(ls[i].id, arg)];
        threw := ls[i].Throws(arg);
        i := i + 1;
      }
    }

    /** `clearTimeout(h)` / `clearInterval(h)`. */
    method ClearTimer(h: Session.Handle)
      modifies this`timers
      ensures Model() == Session.ClearTimer(old(Model()), h)
    {
      timers := timers - {h};
    }

    /** Resolves promise `i` with `data` and clears the request slot. */
    method SettleRequest(i: nat, data: Value)
      modifies this`futures, this`contentResolve, this`contentReject
      ensures Model() == Session.SettleRequest(old(Model()), i, data)
    {
      futures := Session.Resolve(futures, i, data);
      contentResolve, contentReject := None, None;
    }

    /** The `CONTENT_HTML_RESPONSE` case of `onMessage`. */
    method OnContentHtmlResponse(data: Value)
      modifies this`futures, this`contentResolve, this`contentReject, this`pendingContentHtml, this`timers
      ensures Model() == Session.OnContentHtmlResponse(old(Model()), data)
    {
      if contentResolve.Some? {
        SettleRequest(contentResolve.value, data);
        if pendingContentHtml.Some? {
          ClearTimer(pendingContentHtml.value);
          pendingContentHtml := None;
        }
      }
    }

    /** The `OFFSET_HEIGHT` case of `onMessage`. */
    method OnOffsetHeight(data: Value)
      modifies this`height, this`trace
      ensures Model() == Session.OnOffsetHeight(old(Model()), data)
    {
      SetWebHeight(data);
      if props.hasOnHeightChange {
        trace := trace + [Session.HeightChangeCalled];
      }
    }

    /** The `switch` of `onMessage`, for message type `m` with payload `data`. */
    method Dispatch(m: Message, data: Value)
      modifies this`futures, this`contentResolve, this`contentReject, this`pendingContentHtml, this`timers,
               this`height, this`trace
      ensures Model() == Session.Dispatch(old(Model()), m, data)
    {
      match m
      case ContentHtmlResponse =>
        OnContentHtmlResponse(data);
      case Log =>
      case SelectionChange =>
        var threw := NotifyAll(selectionListeners, Session.With(data));
      case ContentFocused =>
        var threw := NotifyAll(focusListeners, Session.NoArg);
      case OffsetHeight =>
        OnOffsetHeight(data);
    }

    /** `onMessage(event)`. */
    method OnMessage(raw: Raw)
      modifies this`futures, this`contentResolve, this`contentReject, this`pendingContentHtml, this`timers,
               this`height, this`trace
      ensures Model() == Session.OnMessage(old(Model()), raw)
    {
      match Decode(raw)
      case Malformed =>
      case Envelope(tag, _, data) =>
        match Classify(tag)
        case None =>
        case Some(m) =>
          Dispatch(m, data);
    }

    /** `registerToolbar(listener)`. */
    method RegisterToolbar(l: Session.Listener)
      modifies this`selectionListeners
      ensures Model() == Session.RegisterToolbar(old(Model()), l)
    {
      selectionListeners := selectionListeners + [l];
    }

    /** `setContentFocusHandler(listener)`. */
    method SetContentFocusHandler(l: Session.Listener)
      modifies this`focusListeners
      ensures Model() == Session.SetContentFocusHandler(old(Model()), l)
    {
      focusListeners := focusListeners + [l];
    }

    /** `setContentHTML(html)`. */
    method SetContentHTML(content: Value)
      modifies this`trace
      ensures Model() == Session.SetContentHTML(old(Model()), content)
    {
      SendAction(ActionTag(Content), Str("setHtml"), content);
    }

    /** `blurContentEditor()`. */
    method BlurContentEditor()
      modifies this`trace
      ensures Model() == Session.BlurContentEditor(old(Model()))
    {
      SendAction(ActionTag(Content), Str("blur"), Undefined);
    }

    /** `focusContentEditor()`. */
    method FocusContentEditor()
      modifies this`trace
      ensures Model() == Session.FocusContentEditor(old(Model()))
    {
      SendAction(ActionTag(Content), Str("focus"), Undefined);
    }

    /** `insertImage(attributes)`. */
    method InsertImage(attributes: Value)
      modifies this`trace
      ensures Model() == Session.InsertImage(old(Model()), attributes)
    {
      SendAction(ActionTag(Action.InsertImage), Str("result"), attributes);
    }

    /** `setTimeout` / `setInterval`: arms timer `t` under a fresh handle `h`. */
    method ArmTimer(t: Session.Timer) returns (h: Session.Handle)
      modifies this`timers, this`nextHandle
      ensures h == old(nextHandle)
      ensures Model() == Session.ArmTimer(old(Model()), t)
    {
      h := nextHandle;
      timers := timers[h := t];
      nextHandle := h + 1;
    }

    /** `editorInitializedCallback && editorInitializedCallback()`: `threw` tells whether it threw. */
    method CallInitializedCallback() returns (threw: bool)
      modifies this`trace
      ensures threw <==> !Session.InitializedCallbackReturns(props)
      ensures Model() == Session.CallInitializedCallback(old(Model()))
    {
      if props.hasEditorInitializedCallback {
        trace := trace + [Session.InitializedCalled];
      }
      threw := !Session.InitializedCallbackReturns(props);
    }

    /** `init()`: `threw` tells whether the initialised callback's exception ended it early. */
    method Init() returns (threw: bool)
      modifies this`isInit, this`trace, this`intervalHeight, this`timers, this`nextHandle
      ensures threw <==> !Session.InitializedCallbackReturns(props)
      ensures Model() == Session.Init(old(Model()))
    {
      isInit := true;
      SetContentHTML(props.initialContentHTML);
      threw := CallInitializedCallback();
      if threw {
        return;
      }
      var h := ArmTimer(Session.HeightPoll(Session.HEIGHT_POLL_MS));
      intervalHeight := Some(h);
    }

    /** The promise part of `getContentHtml()`: a new pending promise `p` takes the slot. */
    method OpenRequest() returns (p: nat)
      modifies this`futures, this`contentResolve, this`contentReject
      ensures p == |old(futures)|
      ensures Model() == Session.OpenRequest(old(Model()))
    {
      p := |futures|;
      futures := futures + [Session.Pending];
      contentResolve, contentReject := Some(p), Some(p);
    }

    /** `getContentHtml()`: `p` is the index of the promise it returns. */
    method GetContentHtml() returns (p: nat)
      modifies this`futures, this`contentResolve, this`contentReject, this`trace, this`pendingContentHtml,
               this`timers, this`nextHandle
      ensures p == |old(futures)|
      ensures Model() == Session.GetContentHtml(old(Model()))
    {
      p := OpenRequest();
      SendAction(ActionTag(Content), Str("postHtml"), Undefined);
      var h := ArmTimer(Session.ContentTimeout(Session.CONTENT_TIMEOUT_MS));
      pendingContentHtml := Some(h);
    }

    /** The event loop runs the callback of timer `h`. */
    method FireTimer(h: Session.Handle)
      modifies this`timers, this`futures, this`trace
      ensures Model() == Session.FireTimer(old(Model()), h)
    {
      if h in timers {
        match timers[h]
        case ContentTimeout(_) =>
          ClearTimer(h);
          if contentReject.Some? {
            futures := Session.Reject(futures, contentReject.value, Str("timeout"));
          }
        case HeightPoll(_) =>
          SendAction(ActionTag(UpdateHeight), Undefined, Undefined);
      }
    }

    /** `componentWillUnmount()`. */
    method ComponentWillUnmount()
      modifies this`timers
      ensures Model() == Session.ComponentWillUnmount(old(Model()))
    {
      if intervalHeight.Some? {
        ClearTimer(intervalHeight.value);
      }
    }
  }
}
