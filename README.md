# Queue-Fair React Native adapter: a Dafny model

This project models the two controllers of the Queue-Fair React Native
adapter library and proves properties of them.

- **`QueueFairAdapter`** is the admission session controller. `go` arms a read
  timeout, then runs three steps in order:
  - it reads the cached identity (`QF-QueueFair-Store-{account}`, stored as
    `u:<uid>`);
  - it reads the cached pass (`QF-QueueFair-Pass-{queue}`);
  - it consults `https://{account}.queue-fair.net/adapter/{queue}`.

  It reports to its listener through `onNoInternet`, `onError`, `onShow` or
  `onPass`. Every cached entry carries an expiry stamp under
  `key + ':expires'`. `isValidExpiry` clears an entry whose stamp is in the past.
- **`QueueFairWebView`** is the queue-page bridge. It builds the queue page
  URL and arms a page-load timer. It then reads the text messages the page
  posts:
  - the startup marker disarms the timer;
  - a `{...}` span with `JOIN` records a join;
  - a span with `REDIRECT` and `qfpt` carries a pass.

  The bridge stores the pass's validation (the suffix of the target from its
  last `qfqid`), stamped from the configured `passedLifetimeMinutes` rather
  than the component's copy that defaults to 60 minutes, so without a
  configured lifetime the pass never expires (see "Findings"). It
  reports ERROR, PASS and ABANDON outcomes through `notify`
  followed by the matching callback. These come from messages, the page-load
  timeout, unmount, and the app going to the background.

Both controllers are Dafny classes whose fields are the source's fields.
Every asynchronous continuation of the source is a method of its own:

- a store read completing;
- the fetch completing or failing;
- a timer firing;
- a page message arriving;
- an app-state change.

Other conventions:

- The device store is a `map<string, string>` field.
- The clock is an integer parameter.
- Listener calls, `notify` calls, fetches and injected navigations are
  appended to a `log` field.

Each class keeps a ghost invariant `Valid()` that every event method
preserves. For the adapter, it is the first-trigger-wins flag discipline:

- the timeout reports at most once, and only as the session's first callback;
- no callback fires before `finished`;
- at most one callback fires without a timeout, and two with one, because
  a reply arriving after the timeout is still reported.

For the bridge, the invariant says:

- a pass is reported or scheduled only after a validation starting with
  `qfqid` was stored;
- nothing has been notified while the page-load timer is armed.

Files:

- `wrappers.dfy`: `Option`.
- `js_string.dfy`: `indexOf`, `lastIndexOf` and `substring`.
- `js_number.dfy`: `'' + n`, `Number(s)` on integer strings, and the delay
  `setTimeout` waits.
- `query_string.dfy`: `split`/`join`, and reading a URL back into its path
  and parameters. This is the reference the built URLs are checked against.
- `preferences.dfy`: the store keys, stamped writes, eviction, and the
  expiry test.
- `adapter.dfy`: the reply mapping as a function (`ReplyEffect`), and the
  class `QueueFairAdapter`.
- `webview.dfy`: the page URL, message classification (`RouteOf`,
  `MessageEvents`), and the class `QueueFairWebView`.
- `adapter_scenarios.dfy` and `webview_scenarios.dfy`: whole sessions driven
  event by event, each with the exact log it produces.

## Model

| member | source | states |
|---|---|---|
| `JsString.IndexOf` | QueueFairAdapter/QueueFairWebView.js:228 | `indexOf` is -1 exactly when the pattern does not occur; otherwise it is an occurrence with none before it |
| `JsString.LastIndexOf` | QueueFairAdapter/QueueFairWebView.js:239 | `lastIndexOf` is -1 exactly when the pattern does not occur; otherwise it is an occurrence with none after it |
| `JsString.IndexOfChar` | QueueFairAdapter/QueueFairAdapter.js:80-82 | searching for one character gives -1 exactly when it is absent, else its first position |
| `JsString.LastIndexOfChar` | QueueFairAdapter/QueueFairWebView.js:239 | searching backwards for one character gives -1 exactly when it is absent, else its last position |
| `JsString.IndexOfZero` | QueueFairAdapter/QueueFairWebView.js:220 | `indexOf(p) === 0` holds exactly when the string starts with `p` |
| `JsString.SubstringEnds` | QueueFairAdapter/QueueFairWebView.js:240 | `substring` swaps reversed ends, clamps ends past the string and below zero, and is the plain slice for ordered ends within the string |
| `JsString.StringOf` | QueueFairAdapter/QueueFairWebView.js:264 | `'' + v` is the string itself when present, and `"undefined"` exactly when absent or that very string |
| `JsNumber.DigitsRoundTrip` | QueueFairAdapter/QueueFairAdapter.js:211 | the decimal digits of `n` read back as `n` |
| `JsNumber.StampRoundTrip` | QueueFairAdapter/QueueFairAdapter.js:270 | `Number('' + n) == n` for every integer, negative ones included |
| `JsNumber.Stamp` | QueueFairAdapter/QueueFairAdapter.js:243-244 | `'' + n` is a non-empty string ending in a digit, with a leading `-` exactly for a negative `n` |
| `JsNumber.ParseNumber` | QueueFairAdapter/QueueFairAdapter.js:270 | `Number('')` is 0, a string not ending in a digit is NaN, and a digit string is its decimal value |
| `JsNumber.NaNIsNotANumber` | QueueFairAdapter/QueueFairAdapter.js:211 | the stamp `"NaN"` written for a missing lifetime parses as NaN |
| `Preferences.ExpiryStamp` | QueueFairAdapter/QueueFairAdapter.js:209-212 | the stamp `'' + (now + Number(lifetime) * unit)` reads back as that instant when the lifetime is set, and as NaN when it is missing |
| `Preferences.Write` | QueueFairAdapter/QueueFairAdapter.js:205-212 | a stamped write sets the value and its stamp and leaves every other key alone |
| `Preferences.Evict` | QueueFairAdapter/QueueFairAdapter.js:271 | clearing removes the value and its stamp and leaves every other key alone |
| `Preferences.ReadSettles` | QueueFairAdapter/QueueFairAdapter.js:254-275 | a read evicts nothing it reports valid; the entry survives exactly when present and not expired; reading again at the same instant changes nothing |
| `Preferences.StampedEntryWindow` | QueueFairAdapter/QueueFairAdapter.js:270 | an entry stamped `now + lifetime*unit` is valid up to and including that instant and expired from the next millisecond |
| `Preferences.NaNStampNeverExpires` | QueueFairAdapter/QueueFairAdapter.js:211 | an entry written without a numeric lifetime never expires |
| `Preferences.KeysDistinct` | QueueFairAdapter/QueueFairAdapter.js:62-105 | the identity, pass and request-number keys and their stamp keys never collide |
| `Adapter.UidFromPreference` | QueueFairAdapter/QueueFairAdapter.js:80-87 | the uid follows the first `:`, or the first `=` when there is no `:`; there is none when neither occurs |
| `Adapter.UidRoundTrip` | QueueFairAdapter/QueueFairAdapter.js:205-207 | a uid stored as `'u:' + x` reads back as `x`, even when `x` holds `:` |
| `Adapter.ConsultUrlLayout` | QueueFairAdapter/QueueFairAdapter.js:134-149 | the consult URL's path is the account's adapter for the queue; its parameters are `uid=` only when a uid is known, then always the identifier, last |
| `Adapter.ConsultQueryParams` | QueueFairAdapter/QueueFairAdapter.js:140-149 | the consult query splits into the optional uid parameter followed by the identifier |
| `Adapter.IsJsonLike` | QueueFairAdapter/QueueFairAdapter.js:175 | a reply is taken as JSON exactly when it has a `{` and does not start with `<` |
| `Adapter.ReplyEffect` | QueueFairAdapter/QueueFairAdapter.js:172-251 | a reply fires exactly one callback (onError, onShow or onPass) unless an exception escapes, and then none; only a JSON-like reply that did not parse to null can throw |
| `Adapter.ReplyErrors` | QueueFairAdapter/QueueFairAdapter.js:175-223 | a reply that is not JSON-like gives onError('Did not receive JSON response...') and stores nothing; a parse throw gives no callback and stores nothing; a null parse gives onError('Null result from Adapter'); a reply without an action gives onError('Result from Adapter has no action.') after the uid handling, leaving the pass entry and its stamp untouched |
| `Adapter.SendToQueueWritesNoPass` | QueueFairAdapter/QueueFairAdapter.js:224-230 | `SendToQueue` gives onShow alone and leaves the pass entry and its stamp untouched |
| `Adapter.ProceedCachesPass` | QueueFairAdapter/QueueFairAdapter.js:232-247 | any other action caches the decoded validation under the pass key, valid until `now + lifetime*60000` inclusive, and reports onPass(action) |
| `Adapter.MismatchUnderDebugThrows` | QueueFairAdapter/QueueFairAdapter.js:193-197 | with debug on, a differing reply uid throws while it is logged: no callback and nothing stored; with debug off the known uid entry is kept |
| `Adapter.UidKeptUnlessUnknown` | QueueFairAdapter/QueueFairAdapter.js:193-215 | the identity entry and its stamp change only when the reply has a uid and none was known |
| `Adapter.UidWrittenWhenUnknown` | QueueFairAdapter/QueueFairAdapter.js:199-212 | a new uid is stored as `'u:' + uid`, reads back as that uid, and stays valid for `cookieSeconds` seconds, or forever when that is not a number |
| `Adapter.QueueFairAdapter.constructor` | QueueFairAdapter/QueueFairAdapter.js:5-21 | a fresh controller has no flags set, no uid, the default timeouts 5 and 60, and nothing logged |
| `Adapter.QueueFairAdapter.Go` | QueueFairAdapter/QueueFairAdapter.js:24-55 | clears `showingQueue`, takes the configured timeouts as given, arms the read timer `readTimeout*1000` ms ahead, and starts the identity read |
| `Adapter.QueueFairAdapter.ReadTimeoutFired` | QueueFairAdapter/QueueFairAdapter.js:41-51 | the timeout does nothing once finished; otherwise it sets `timedOut` and `finished` and logs one onNoInternet |
| `Adapter.QueueFairAdapter.SetUidFromPreference` | QueueFairAdapter/QueueFairAdapter.js:58-64 | resets `preference` and issues the identity read |
| `Adapter.QueueFairAdapter.IsValidExpiry` | QueueFairAdapter/QueueFairAdapter.js:254-275 | an absent stamp is invalid; a past one is invalid and evicts the entry and its stamp; otherwise, equal to now or NaN included, it is valid and nothing is cleared |
| `Adapter.QueueFairAdapter.ReadEntry` | QueueFairAdapter/QueueFairAdapter.js:64-77 | `preference` receives the stored value; the answer is valid exactly for a present entry with a valid stamp; the store becomes the read's eviction result |
| `Adapter.QueueFairAdapter.UidLookupCompleted` | QueueFairAdapter/QueueFairAdapter.js:75-96 | a valid identity with a uid sets `uid`; then the pass read starts unless the session finished |
| `Adapter.QueueFairAdapter.CheckPassed` | QueueFairAdapter/QueueFairAdapter.js:101-107 | resets `preference` and issues the pass read |
| `Adapter.QueueFairAdapter.PassLookupCompleted` | QueueFairAdapter/QueueFairAdapter.js:118-128 | a valid pass finishes the session with onPass('Repass') (nothing when already finished) and no consult; an absent or expired one consults, finished or not |
| `Adapter.QueueFairAdapter.Repass` | QueueFairAdapter/QueueFairAdapter.js:123-127 | onPass('Repass') once, only when not already finished |
| `Adapter.QueueFairAdapter.BuildConsultUrl` | QueueFairAdapter/QueueFairAdapter.js:134-149 | the successive appends build exactly the consult URL |
| `Adapter.QueueFairAdapter.ConsultAdapter` | QueueFairAdapter/QueueFairAdapter.js:133-155 | logs the fetch of the consult URL for the current uid |
| `Adapter.QueueFairAdapter.GotAdapter` | QueueFairAdapter/QueueFairAdapter.js:172-251 | the store, callbacks and throw are those of `ReplyEffect`, and `finished` is set on every path |
| `Adapter.QueueFairAdapter.GotReply` | QueueFairAdapter/QueueFairAdapter.js:190-250 | a parsed reply has the store, callbacks and throw of `ReplyEffect` |
| `Adapter.QueueFairAdapter.RecordUid` | QueueFairAdapter/QueueFairAdapter.js:193-215 | the reply's uid is written with its lifetime only when none was known |
| `Adapter.QueueFairAdapter.FetchCompleted` | QueueFairAdapter/QueueFairAdapter.js:154-168 | a reply is handled as `ReplyEffect` says even after a timeout; a throw reaches the `.catch`, which finds `finished` set and adds nothing |
| `Adapter.QueueFairAdapter.FetchFailed` | QueueFairAdapter/QueueFairAdapter.js:162-168 | a failed fetch reports onError(error) only when not already finished |
| `AdapterScenarios.FirstVisit` | QueueFairAdapter/QueueFairAdapter.js:24-155 | with nothing cached, both reads complete and the consult goes out without a uid |
| `AdapterScenarios.LateReplyAfterTimeout` | QueueFairAdapter/QueueFairAdapter.js:172-251 | a timeout during the consult gives onNoInternet, and the later SendToQueue reply still gives onShow |
| `AdapterScenarios.RepassAtExpiryInstant` | QueueFairAdapter/QueueFairAdapter.js:118-127 | a pass stamped with the current instant is valid: the log is just onPass('Repass') |
| `AdapterScenarios.ExpiredPassConsults` | QueueFairAdapter/QueueFairAdapter.js:270-272 | one millisecond later the pass and its stamp are cleared and the adapter is consulted |
| `AdapterScenarios.UidCarriedToNextSession` | QueueFairAdapter/QueueFairAdapter.js:199-212 | a uid received without a cookie lifetime is used by the next session's consult, however much later |
| `AdapterScenarios.ThrowingReplyIsSilent` | QueueFairAdapter/QueueFairAdapter.js:154-168 | a reply whose parse or decode throws ends the session: the `.catch` finds `finished` set, and the later read timeout does nothing, so the listener is never called |
| `AdapterScenarios.ReturningVisit` | QueueFairAdapter/QueueFairAdapter.js:75-96 | a stored identity `'u:' + x` with a NaN stamp makes the session consult with uid `x` |
| `WebView.QueuePageUrlLayout` | QueueFairAdapter/QueueFairWebView.js:61-77 | the page URL's path is the account's page for the queue; its parameters are `qfv=` and `qfx=` (each only when set), then always `qfreact=true` and `qfnoredirect=true` |
| `WebView.PageQueryParams` | QueueFairAdapter/QueueFairWebView.js:68-77 | the page query splits into the set tags followed by the two flags |
| `WebView.TagsThenRest` | QueueFairAdapter/QueueFairWebView.js:68-74 | the two optional tags are parameters of their own ahead of the rest |
| `WebView.FlagParams` | QueueFairAdapter/QueueFairWebView.js:77 | the flag suffix is the two parameters `qfreact=true` and `qfnoredirect=true` |
| `WebView.TagParams` | QueueFairAdapter/QueueFairWebView.js:68-70 | a set tag adds one parameter and an unset one none |
| `WebView.TagsAreNotEncoded` | QueueFairAdapter/QueueFairWebView.js:68-74 | the variant is not encoded: a variant holding `&qfx=` yields the same URL as a shorter variant with a separate extra |
| `WebView.BuildPageUrl` | QueueFairAdapter/QueueFairWebView.js:60-77 | the constructor's successive appends build exactly the queue page URL |
| `WebView.IsStartupMarker` | QueueFairAdapter/QueueFairWebView.js:220 | a message is the startup marker exactly when it begins with `QF Queue Script Starting.` |
| `WebView.IsAsleep` | QueueFairAdapter/QueueFairWebView.js:156 | a state is asleep exactly when it contains `inactive` or `background` |
| `WebView.ActiveIsAwake` | QueueFairAdapter/QueueFairWebView.js:155-171 | `'active'` is not asleep, so waking and sleeping never happen on one change |
| `WebView.Span` | QueueFairAdapter/QueueFairWebView.js:228-240 | the parsed text runs from the first `{` through the last `}`; the ends are swapped when the `}` comes first, and everything before the `{` is taken when there is no `}` |
| `WebView.ValidationSuffix` | QueueFairAdapter/QueueFairWebView.js:193-198 | the validation is the suffix of the target that starts at its last `qfqid` (so it starts with `qfqid` and holds no later one); there is none without the marker |
| `WebView.JsonRoute` | QueueFairAdapter/QueueFairWebView.js:238-316 | a parse failure, a null, a JOIN (which wins), a redirect without `qfpt`, a null target, a target without `qfqid`, and a pass are told apart exactly by these conditions |
| `WebView.WrittenPassStamp` | QueueFairAdapter/QueueFairWebView.js:203-207 | the stamp as written reads back as `now + lifetime*60000` for a configured lifetime, and is valid at every instant when none is configured |
| `WebView.PassStamp` | QueueFairAdapter/QueueFairWebView.js:52-54 | the intended stamp, from the component's lifetime, reads back as `now + lifetime*60000` |
| `WebView.PassStampWindow` | QueueFairAdapter/QueueFairWebView.js:52-54 | a pass stamped with the intended stamp is valid up to and including `now + lifetime*60000` and expired from the next millisecond |
| `WebView.LifetimeFinding` | QueueFairAdapter/QueueFairWebView.js:206 | without a configured lifetime, the stamp as written is still valid after the default 60 minutes, while the stamp from the component's lifetime is valid up to then and expired just after |
| `WebView.RouteOf` | QueueFairAdapter/QueueFairWebView.js:227-236 | a message is ignored exactly when it has no `{` or has neither `REDIRECT` nor `JOIN`; otherwise its span is parsed and dispatched |
| `WebView.PassRouteMeaning` | QueueFairAdapter/QueueFairWebView.js:189-198 | a redirect with `qfpt` and a target has its marker missing exactly when the target lacks `qfqid`; a pass carries a validation that is a suffix of the target, starts with `qfqid` and holds no later one, with the `type` and `when` of the message |
| `WebView.MessageEvents` | QueueFairAdapter/QueueFairWebView.js:238-324 | a message makes no call, a lone onJoin, or a `notify` immediately followed by the callback it announces; ignored messages and redirects without `qfpt` make none |
| `WebView.MessageErrors` | QueueFairAdapter/QueueFairWebView.js:244-285 | an unparsable span gives ERROR then onError('Queue output could not be parsed.'); a null gives ERROR then onError('Bad json.'); a join gives onJoin(request) alone; a redirect without `qfpt` gives nothing; a null target gives ERROR then onError('Invalid target from queue.'); a target without `qfqid` gives ERROR then onError of the handling error the missing listener raises |
| `WebView.ScheduledDue` | QueueFairAdapter/QueueFairWebView.js:308-316 | a pass not due at once is scheduled `when` ms ahead, with `when` positive, or at once when `when` is absent |
| `WebView.MessageCounts` | QueueFairAdapter/QueueFairWebView.js:238-324 | a message notifies at most once, exactly when `Notifies` holds (never for a join); onPass is called only for a pass due at once while mounted |
| `WebView.QueueFairWebView.constructor` | QueueFairAdapter/QueueFairWebView.js:42-96 | takes the lifetime and timeout with defaults 60 and 30, builds the page URL, and arms the page-load timer `webViewTimeout*1000` ms ahead |
| `WebView.QueueFairWebView.Notify` | QueueFairAdapter/QueueFairWebView.js:127-136 | `notify` disarms the page-load timer (a no-op when it is not armed) and records the outcome |
| `WebView.QueueFairWebView.Announce` | QueueFairAdapter/QueueFairWebView.js:100-101 | `notify(what)` followed by the callback that reports it |
| `WebView.QueueFairWebView.OnTimeOut` | QueueFairAdapter/QueueFairWebView.js:98-102 | the page-load timeout disarms the timer and reports ERROR with `Queue page did not run.` |
| `WebView.QueueFairWebView.ReportError` | QueueFairAdapter/QueueFairWebView.js:252-253 | ERROR is notified and then onError(detail) is called |
| `WebView.QueueFairWebView.ComponentDidMount` | QueueFairAdapter/QueueFairWebView.js:150-153 | mounting clears `unmounted` and registers the app-state listener |
| `WebView.QueueFairWebView.ComponentWillUnmount` | QueueFairAdapter/QueueFairWebView.js:138-148 | unmounting removes the listener and abandons with `Unmount` exactly when no pass was received |
| `WebView.QueueFairWebView.AppStateChanged` | QueueFairAdapter/QueueFairWebView.js:154-184 | waking reloads the page only when it was blanked; sleeping from `active` blanks it and abandons with `Background`, whether or not passed |
| `WebView.QueueFairWebView.WentToBackground` | QueueFairAdapter/QueueFairWebView.js:176-181 | blanks the page, then ABANDON and onAbandon('Background') |
| `WebView.QueueFairWebView.StoreValidation` | QueueFairAdapter/QueueFairWebView.js:189-210 | stores the validation suffix, stamped from the configured lifetime as written (`WrittenPassStamp`), exactly when the target holds `qfqid`; otherwise it stores nothing |
| `WebView.QueueFairWebView.HandleMessage` | QueueFairAdapter/QueueFairWebView.js:213-325 | the log grows by `MessageEvents` of the message's route; the request number or the pass is stored as routed; a pass sets `passed` and is scheduled when not due; the timer is disarmed by the startup marker or by any notify |
| `WebView.QueueFairWebView.HandleJson` | QueueFairAdapter/QueueFairWebView.js:238-269 | the same effects for a parsed span, by its `JsonRoute` |
| `WebView.QueueFairWebView.RecordJoin` | QueueFairAdapter/QueueFairWebView.js:262-268 | a join stores `'' + request` under `QF-mostRecentRequestNumber` and calls onJoin without notifying |
| `WebView.QueueFairWebView.HandleRedirect` | QueueFairAdapter/QueueFairWebView.js:271-293 | a redirect is ignored without `qfpt`, reports a null target, and otherwise stores and reports or schedules the pass |
| `WebView.QueueFairWebView.AcceptPass` | QueueFairAdapter/QueueFairWebView.js:290-323 | a target without `qfqid` ends in the ERROR the missing listener raises, with nothing stored; otherwise the pass is stored and passed on |
| `WebView.QueueFairWebView.Passed` | QueueFairAdapter/QueueFairWebView.js:295-316 | sets `passed`; no callback while unmounted; PASS and onPass at once when `when <= 0`; otherwise scheduled `when` ms later |
| `WebView.QueueFairWebView.PassTimerFired` | QueueFairAdapter/QueueFairWebView.js:313-316 | a scheduled pass fires PASS and onPass, mounted or not, and is removed from the schedule |
| `WebViewScenarios.Mounted` | QueueFairAdapter/QueueFairWebView.js:150-153 | a freshly mounted component is subscribed, not passed, with the timer armed and nothing logged |
| `WebViewScenarios.PageNeverRuns` | QueueFairAdapter/QueueFairWebView.js:93-102 | without the startup marker, the timer fires after 30 s and reports ERROR |
| `WebViewScenarios.StartupDisarmsTimer` | QueueFairAdapter/QueueFairWebView.js:220-225 | the startup marker disarms the page-load timer without any call |
| `WebViewScenarios.ReceivedPass` | QueueFairAdapter/QueueFairWebView.js:295-316 | a mounted component reports a pass due now at once and schedules a later one |
| `WebViewScenarios.PassWithoutLifetimeNeverExpires` | QueueFairAdapter/QueueFairWebView.js:203-207 | without a configured lifetime the component's lifetime is the default 60, yet the stored pass is stamped NaN and is still valid at any later instant |
| `WebViewScenarios.PassThenBackground` | QueueFairAdapter/QueueFairWebView.js:169-182 | after a reported pass, going to the background still abandons |
| `WebViewScenarios.UnmountAfterPass` | QueueFairAdapter/QueueFairWebView.js:144-147 | after a stored pass, unmounting abandons nothing |
| `WebViewScenarios.MarkerMissingThenUnmount` | QueueFairAdapter/QueueFairWebView.js:193-196 | a target without `qfqid` reports the listener TypeError, stores nothing, and leaves the component unpassed, so unmounting abandons |

## Findings

| source | as written | input that shows it | evidently intended | confidence | as-written member | corrected member |
|---|---|---|---|---|---|---|
| QueueFairAdapter/QueueFairWebView.js:206 | the pass stamp is `Date.now() + Number(this.config.passedLifetimeMinutes) * 60 * 1000`, from the configuration | a configuration without `passedLifetimeMinutes`: the stamp is `"NaN"` and the stored pass never expires | stamp from `this.passedLifetimeMinutes`, which defaults to 60 (QueueFairWebView.js:31, 52-54) and is otherwise never read, as the adapter does at QueueFairAdapter.js:244 | medium, not executed | `WebView.WrittenPassStamp`, `WebView.LifetimeFinding` | `WebView.PassStamp`, `WebView.PassStampWindow` |

## Left out

- Rendering is not modelled: `render`, the `<WebView>` props, and the page's load-error handler, which reports NOINTERNET and onNoInternet. The scripts injected into the page are the `NavigateBlank` and `Reload` log entries.
- `setState` is not modelled as asynchronous: the new app state is taken at once.
- `WebView.QueueFairWebView.Notify` does not model the forward to `QueueFairAdapter.instance.notify`. That static member is not defined in QueueFairAdapter.js, so whether the call reaches a waiting latch or throws is outside this model. `notify` is recorded as a `Notified` log entry after it disarms the timer.
- `JSON.parse` and `decodeURIComponent` are not modelled internally. They are parameters: a function from the text to its parse result, and one from the argument to its decoding, where `None` means it threw.
- Numbers are modelled as integers only. `Number()` is modelled on the empty string and on optionally signed decimal digit strings; anything else is NaN. Decimals, exponents, whitespace and `Infinity` are not modelled, and neither are fractional timeouts or lifetimes.
- Non-string JSON fields are not modelled. `uid`, `action`, `target`, `type` and `request` are taken in their string forms. A non-string target, whose `lastIndexOf` would throw, is not covered. A `when` of `null`, which JavaScript compares as 0, is not told apart from an absent one. An explicit JSON `null` for `request` (the join) or `validation` (the adapter's pass) is taken as absent, `"undefined"`, where `'' + null` and `decodeURIComponent(null)` give `"null"`.
- Debug logging is not modelled, with one exception: the uid-mismatch log statement at QueueFairAdapter.js:196 applies the uid as a template tag and throws, and that throw is modelled.
- The store writes are applied at once, value first and stamp second; the promise chaining of `DefaultPreference` is not modelled. Each controller has its own copy of the store.
- Real timers are not modelled. Each armed timer is its due time: `readTimer`, `savedTimeout`, and the list of deferred passes. A timer firing is a method that requires its due time to have come.
- `fetch` and `response.text()` are not modelled: a completed fetch delivers the body, and a failed one delivers the error text.
- `LISTENER_TYPE_ERROR` is the wording a common JavaScript engine gives the TypeError raised by the missing `listener`; other engines word it differently.
- `WebView.QueueFairWebView.ComponentWillUnmount` and `WebView.QueueFairWebView.AppStateChanged` require a prior mount: the source removes or uses the app-state subscription, which only exists after `componentDidMount`.
- The adapter's `stage` field is not a field of the source. It records which continuation is pending, standing in for the promise chain.
