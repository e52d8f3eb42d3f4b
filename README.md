# RichTextEditor bridge session, modelled in Dafny

`RichTextEditor` (react-native-pell-rich-editor) hosts an HTML editor inside a
WebView and talks to it only by posting JSON messages `{type, name, data}` in
both directions. This project models the host side of that bridge: how an
inbound message is decoded and dispatched, how `getContentHtml` pairs its
`(content, postHtml)` command with the `CONTENT_HTML_RESPONSE` that answers it
or with a 5000 ms timeout, how selection and focus listeners are fanned out,
how the reported height is stored and republished, and how `init` and
`componentWillUnmount` start and stop the 200 ms height poll.

Files:

- `codec.dfy` (module `Codec`): JavaScript values, truthiness and `===`, the
  envelope encoding done by `_sendAction` and the decoding done by `onMessage`,
  the action and message constants, and the `switch` on `message.type`.
- `template.dfy` (module `Template`): the first-occurrence placeholder
  substitution the constructor applies to the HTML template.
- `session.dfy` (module `Session`): the session state as a value and one
  function per handler; an event type and `Run` over event sequences.
  Promises are settle-once futures (`Pending`, `Resolved`, `Rejected`) held by
  the session, and the resolve/reject pair is the index of its promise. Timers
  are live handles carrying the callback they run; firing one is an event.
  The outbound log and the callback calls are one ordered `trace`.
- `editor.dfy` (module `Editor`): the class `RichTextEditor`, whose fields are
  the ones the handlers update in place; every method is proved to produce
  exactly the state the corresponding `Session` function describes, and the
  listener fan-out is a loop proved against `Session.FanOut`.
- `session_properties.dfy` (module `SessionProperties`): the properties of the
  protocol and its quirks, as lemmas.

Parameters stand for what the component receives from outside: the HTML
template (the editor page is not part of this model), the props (already
defaulted: `minHeight` 200, `backgroundColor` "#FFF", `color` "#000"; whether
`editorInitializedCallback` is given and whether it throws), each inbound
message, each timer firing, and the WebView ref callback.

Where the intended protocol and the code differ, the model follows the code:

- `onHeightChange` is called on every `OFFSET_HEIGHT` message, repeats
  included; only the stored height is deduplicated.
- A timeout rejects whichever request is current and does not clear the
  request slot; a later response then clears the slot and settles nothing.
- A second `getContentHtml` overwrites the pending one without settling it;
  the first promise stays pending for ever.
- `componentWillUnmount` clears only the current height poll. The request
  timeout stays armed, nothing in `componentWillUnmount` guards `onMessage`, and a poll left behind by
  a repeated `init` stays armed for ever; once React has detached the WebView
  ref its firings post nothing.
- A throwing `editorInitializedCallback` ends `init` before `setInterval`, so
  no height poll is armed.

## Model

| member | source | states |
|---|---|---|
| `Codec.Encode` | src/RichEditor.js:184 | the frame is an object with only `type`, `name`, `data`, none `undefined`, and decoding it gives back exactly the type, name and data passed in |
| `Codec.Decode` | src/RichEditor.js:98-99 | unparseable text, `null` and `undefined` are malformed (reading `type` of them throws) and nothing else is; otherwise each of `type`, `name`, `data` is the member of that name when the value is an object holding it, and `undefined` otherwise |
| `Codec.Classify` | src/RichEditor.js:99-129 | a message type selects the case whose constant it equals, and every constant selects its own case; any other type selects none |
| `Template.IndexFrom` | src/RichEditor.js:47-48 | the index found is an occurrence of the pattern with no occurrence before it; none found means the pattern does not occur |
| `Template.ReplaceFirst` | src/RichEditor.js:47-48 | only the first occurrence of the placeholder is replaced and the rest of the text is kept; without an occurrence the text is unchanged |
| `Template.EditorHtml` | src/RichEditor.js:46-48 | a template without either placeholder is the page unchanged |
| `Template.EditorHtmlFillsPlaceholders` | src/RichEditor.js:46-48 | a template `a {editorBackgroundColor} b {editorTextColor} c` whose placeholders are the first of their kind becomes `a bg b color c` |
| `Session.ContainerHeight` | src/RichEditor.js:174 | a truthy stored height wins, otherwise `minHeight` is used; the result is truthy exactly when one of them is |
| `Session.FirstThrower` | src/RichEditor.js:116-122 | the fan-out stops at the first listener that throws: every listener before it does not throw on the argument |
| `Editor.RichTextEditor.constructor` | src/RichEditor.js:33-49 | empty listener lists, height 0, not initialised, no request, no timers, page built by the two placeholder substitutions |
| `Editor.RichTextEditor.SetBridgeRef` | src/RichEditor.js:149-151 | the ref callback sets or clears the WebView reference and nothing else |
| `Editor.RichTextEditor.SendAction` | src/RichEditor.js:183-189 | appends the encoded frame to the outbound log when the reference is set, otherwise changes nothing |
| `Editor.RichTextEditor.SetWebHeight` | src/RichEditor.js:135-139 | stores the height only when it is not `===` to the stored one |
| `Editor.RichTextEditor.NotifyAll` | src/RichEditor.js:114-123 | calls the listeners in order with the argument, stopping after the first that throws, and reports whether one threw |
| `Editor.RichTextEditor.ClearTimer` | src/RichEditor.js:106 | removes the handle from the live timers and changes nothing else; a spent handle is ignored |
| `Editor.RichTextEditor.SettleRequest` | src/RichEditor.js:102-104 | resolves the promise (a settled one is left as it is) and clears resolve and reject |
| `Editor.RichTextEditor.OnContentHtmlResponse` | src/RichEditor.js:100-110 | with a resolver set: resolves its promise with the data, clears resolve, reject and the timer handle and clears that timer; otherwise nothing |
| `Editor.RichTextEditor.OnOffsetHeight` | src/RichEditor.js:125-128 | stores the height as `setWebHeight` does, then calls `onHeightChange` when given |
| `Editor.RichTextEditor.Dispatch` | src/RichEditor.js:99-129 | runs exactly the case of the `switch` for the message type; `LOG` changes nothing |
| `Editor.RichTextEditor.OnMessage` | src/RichEditor.js:96-133 | decodes and dispatches to exactly one case; malformed input, unknown types and `LOG` change nothing |
| `Editor.RichTextEditor.RegisterToolbar` | src/RichEditor.js:194-201 | appends the listener at the end of the selection list |
| `Editor.RichTextEditor.SetContentFocusHandler` | src/RichEditor.js:203-205 | appends the listener at the end of the focus list |
| `Editor.RichTextEditor.SetContentHTML` | src/RichEditor.js:207-209 | sends `(content, setHtml, html)` |
| `Editor.RichTextEditor.BlurContentEditor` | src/RichEditor.js:211-213 | sends `(content, blur)` without data |
| `Editor.RichTextEditor.FocusContentEditor` | src/RichEditor.js:215-217 | sends `(content, focus)` without data |
| `Editor.RichTextEditor.InsertImage` | src/RichEditor.js:219-221 | sends `(insertImage, result, attributes)` |
| `Editor.RichTextEditor.ArmTimer` | src/RichEditor.js:232-234 | the new timer is stored under the next handle, which is returned, and the counter moves past it; nothing else changes |
| `Editor.RichTextEditor.CallInitializedCallback` | src/RichEditor.js:229-230 | records the callback call when it is given and reports whether it throws |
| `Editor.RichTextEditor.Init` | src/RichEditor.js:223-235 | sets `isInit`, sends the initial content, calls the initialised callback when given, then installs a new 200 ms poll unless the callback threw; reports whether it threw |
| `Editor.RichTextEditor.OpenRequest` | src/RichEditor.js:238-240 | a new pending promise is appended and resolve and reject both point to it, replacing whatever they held |
| `Editor.RichTextEditor.GetContentHtml` | src/RichEditor.js:237-249 | returns a new pending promise, overwrites the request slot with it, sends `(content, postHtml)`, arms a 5000 ms timeout |
| `Editor.RichTextEditor.FireTimer` | src/RichEditor.js:243-247 | a request timeout rejects the current reject with "timeout" and leaves the slot; a poll sends `updateHeight` |
| `Editor.RichTextEditor.ComponentWillUnmount` | src/RichEditor.js:65-68 | clears the current poll timer, nothing else |
| `SessionProperties.SendActionPostsOneFrame` | src/RichEditor.js:183-189 | with the reference set exactly one frame is posted and it decodes to the given type, name and data; without it the state is unchanged |
| `SessionProperties.OnlyLatestRequestIsLive` | src/RichEditor.js:237-249 | in every reachable state resolve and reject belong to the same promise, the most recent one |
| `SessionProperties.RequestOverwritesSlot` | src/RichEditor.js:238-247 | one `(content, postHtml)` frame; a new pending promise takes the slot; no earlier promise is settled and no earlier timer cleared |
| `SessionProperties.ResponseSettlesCurrentRequest` | src/RichEditor.js:100-110 | the current promise is resolved with the data unless settled; slot and timer cleared; with no resolver nothing changes |
| `SessionProperties.TimeoutRejectsCurrentRequest` | src/RichEditor.js:243-246 | a firing timeout rejects the promise reject currently belongs to, whatever request armed it; apart from that promise and the spent timer nothing changes, the slot included |
| `SessionProperties.ResponseBeforeTimeout` | src/RichEditor.js:100-110 | a response before the timeout resolves the request and its timer can no longer fire |
| `SessionProperties.StaleTimeoutRejectsNewerRequest` | src/RichEditor.js:238-247 | the first request's timer rejects the second request while the first stays pending |
| `SessionProperties.ResponseAfterTimeoutSettlesNothing` | src/RichEditor.js:100-110 | after a timeout the slot is still occupied; a late response clears it and the rejected promise stays rejected |
| `SessionProperties.CurrentRequestCanAlwaysSettle` | src/RichEditor.js:237-249 | in every reachable state a pending current request has its timeout armed, firing it rejects the promise with "timeout", and a response would resolve it instead |
| `SessionProperties.LiveStep` | src/RichEditor.js:100-110 | every event keeps the current request's timeout armed while that request is pending, and keeps each handle field pointing at a timer of its own kind |
| `SessionProperties.SettledFutureIsFinal` | src/RichEditor.js:100-110 | after any sequence of events a settled promise keeps its outcome |
| `SessionProperties.AbandonedFutureIsFrozen` | src/RichEditor.js:238-240 | a promise the slot no longer refers to is never changed by any later event |
| `SessionProperties.OverwrittenRequestNeverSettles` | src/RichEditor.js:238-240 | the first of two overlapping requests stays pending after any sequence of events |
| `SessionProperties.OffsetHeightUpdate` | src/RichEditor.js:125-139 | the height becomes the message value, updated only when not `===`; `onHeightChange` is called on every such message |
| `SessionProperties.RepeatedHeightNotifiesEachTime` | src/RichEditor.js:125-128 | the same height twice calls `onHeightChange` twice and the second message stores nothing |
| `SessionProperties.InitialContainerHeight` | src/RichEditor.js:174 | before any height arrives the container height is `minHeight` |
| `SessionProperties.ContainerHeightFollowsOffset` | src/RichEditor.js:174 | after an `OFFSET_HEIGHT` the container height is the value when truthy, else `minHeight` |
| `SessionProperties.FanOutCallsEachInOrder` | src/RichEditor.js:116-118 | with no listener throwing, each is called once, in order, with the argument |
| `SessionProperties.FanOutStopsAtThrower` | src/RichEditor.js:116-118 | a throwing listener is called and no listener after it is |
| `SessionProperties.SelectionRegistrationsAppend` | src/RichEditor.js:194-201 | registering listeners one by one appends them in order and changes nothing else |
| `SessionProperties.FocusRegistrationsAppend` | src/RichEditor.js:203-205 | registering focus handlers one by one appends them in order and changes nothing else |
| `SessionProperties.SelectionChangeReachesRegistered` | src/RichEditor.js:114-120 | after registering L1..Ln a `SELECTION_CHANGE` calls every selection listener in order, once each, with the data |
| `SessionProperties.FocusReachesRegistered` | src/RichEditor.js:121-124 | after registering handlers a `CONTENT_FOCUSED` calls every focus listener in order with no argument |
| `SessionProperties.IgnoredMessagesChangeNothing` | src/RichEditor.js:96-133 | unparseable input, an unknown type and `LOG` leave the session exactly as it was |
| `SessionProperties.InitSequence` | src/RichEditor.js:223-235 | `isInit` set, then the setHtml frame, then the initialised callback, then a fresh 200 ms poll with earlier timers left armed; a throwing callback leaves timers and handle field untouched |
| `SessionProperties.UnmountClearsOnlyPoll` | src/RichEditor.js:65-68 | only the current poll timer is cleared; the request timeout and all other state stay |
| `SessionProperties.ReinitLeaksFirstPoll` | src/RichEditor.js:65-68 | after two `init`s, unmount and the ref detach, the first poll is still armed and firing it changes nothing; with a throwing callback no poll is armed at all |
| `SessionProperties.DetachedPollIsInert` | src/RichEditor.js:183-189 | a poll firing while the WebView ref is unset posts nothing and leaves the state as it was |
| `SessionProperties.PollOnlyAfterLoad` | src/RichEditor.js:232-234 | without a load event no height poll is ever armed |

## Left out

- Rendering: the JSX, WebView props, styles and the `isInit`-dependent style (src/RichEditor.js:141-181, 252-298); only the `height || minHeight` choice is modelled, as `Session.ContainerHeight`.
- Keyboard handlers and `componentWillMount` (src/RichEditor.js:51-63, 70-94): their subscription is commented out and their result is discarded.
- Time: timers carry their delay, but a live timer may fire at any step; the model does not order a 200 ms poll before a 5000 ms timeout.
- JSON text: frames are the values `JSON.stringify` would serialise; `undefined` members are dropped only at the top level of a frame, not inside `data`.
- Numbers are integers; fractional heights are not modelled.
- The action and message constants: their spellings in the constants file are not part of this model; the model uses distinct placeholder strings.
- Exceptions outside the listeners and the initialised callback: `JSON.stringify` of a frame never throws here (values are finite trees without `BigInt`), and a throwing `onHeightChange` is caught by `onMessage` after everything its case does, so neither needs a path of its own.
- The `LOG` case's `console.log` output (and the error it raises when `data` is not iterable): neither changes session state, so the case is a no-op.
- Listener side effects: a listener is an identity plus the finite set of arguments it throws on; a listener that calls back into the session during a fan-out is not modelled.
- Unmount order: `componentWillUnmount` and the ref detach are two events (`Unmount`, `BridgeRef(false)`); React runs them in one unmount, while the model also admits sequences with other events between them or without the detach.
- Props: the props, and whether the initialised callback throws, are fixed for the whole session; a parent re-render that replaces `onHeightChange`, `minHeight`, `initialContentHTML` or `editorInitializedCallback` between events is not modelled, so a callback that throws on one `init` and returns on another is not covered.
- `Template.EditorHtml`: its own contract covers only a template without placeholders; the substitution of both colours is proved by `Template.EditorHtmlFillsPlaceholders`, for templates whose background placeholder comes before the text-colour one.
- `setState` batching: state updates take effect immediately.
- `Template.ReplaceFirst`: does not interpret `$` patterns in the replacement string, and the colour props are taken to be strings.
- The `async` wrapper of `getContentHtml`: the promise it returns is taken to settle exactly as the inner promise does.
