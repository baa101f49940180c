# Mob timer web client: a verified model

This project models the browser client of a shared mob-programming countdown
timer (`src/webapp/index.ts`). The server pushes events over an event stream.
The client does four things:

- it shows the remaining time as `MM:SS`;
- it raises desktop notifications when the timer starts, stops or ends;
- it spots a silent connection loss with a ten-second watchdog;
- it lets the user replace the stream subscription with a reconnect button that has a five-second cooldown.

Modules:

- `Wrappers` holds `Option`.
- `DisplayTime` holds `secondToDisplayTime` as a function on `nat`, with the
  decimal-digit and `padStart(2, '0')` helpers it uses. A parser for the same
  format is defined beside it so that the round trip can be stated.
- `Watchdog` holds `ConnectionTimeoutWatcher`. It has a value form
  (`WatchState`, `Refresh`, `Expire`, traces with `Run`) and a class with
  fields `connected` and `deadline` whose methods are proved to follow the
  value form. `setTimeout` is replaced by a virtual clock in milliseconds.
- `Client` holds the page-level state machine.
  - The stream events are a datatype. Payload decoding gives an `Option`.
  - The status presenter maps a flag to a status text and button visibility.
  - Notification texts include the notification permission as an input.
  - The page is a record with these fields: the clock, the time text, the status text, whether
    the reconnect button is visible, until when it is disabled, the active
    subscription, the open subscriptions, the next subscription id, the
    watchdog state and a log of the notifications shown.
  - Each input (a stream delivery, a reconnect click, a `time` response, time
    passing) is a function on that record (`OnEvent`, `OnClick`,
    `OnTimeResponse`, `RunTimers`).
  - The class `MobTimerClient` updates the same fields step by step, as the
    listeners do. The constructor and the input handlers (`HandleEvent`,
    `HandleClickReconnectButton`, `HandleTimeResponse`, `Wait`) are proved
    to produce the state the matching function gives and to keep the
    invariant `Inv`. The helpers they call are proved to follow `WithStatus`,
    `WithTime`, `WithNotification`, `RunTimers` and `Reconcile`.
    `SetupEventSource` adds the next id to the open subscriptions. The helpers
    do not keep `Inv` on their own: just after `SetupEventSource`, for
    instance, the new id is open but not yet the active one.

The timing conventions are these:

- Every input carries its time.
- Timers due by that time run before the input is handled. These timers are
  the watchdog expiry and the re-enabling of the reconnect button.
- A deadline fires once the clock reaches it.

## Model

| member | source | states |
|---|---|---|
| `DisplayTime.DigitsCorrect` | src/webapp/index.ts:184-186 | the template-literal text of a number is a non-empty digit string that denotes the number, one character exactly below 10, with no leading zero |
| `DisplayTime.PadStart2Correct` | src/webapp/index.ts:184-186 | `padStart(2, '0')` keeps the value of a digit string, gives width 2 to shorter strings and leaves longer ones untouched |
| `DisplayTime.DisplayTimeShape` | src/webapp/index.ts:182-188 | for every `sec`, the text is the padded minutes `sec / 60`, a colon, then exactly two digits worth `sec % 60`, which is below 60 |
| `DisplayTime.DisplayTimeBelow6000` | src/webapp/index.ts:182-188 | below 6000 seconds the text has five characters `MM:SS`, with MM worth `sec / 60` and SS worth `sec % 60` |
| `DisplayTime.DisplayTimeFrom6000` | src/webapp/index.ts:184 | from 6000 seconds on, the minutes field is the full decimal text of `sec / 60` (three or more digits): padding never truncates |
| `DisplayTime.DisplayTimeRoundTrip` | src/webapp/index.ts:182-188 | parsing the display time of any `sec` gives back `sec` |
| `DisplayTime.DisplayTimeInjective` | src/webapp/index.ts:182-188 | two different second counts never show the same text |
| `DisplayTime.DisplayTimeExamples` | src/webapp/index.ts:182-188 | 5, 65, 600, 1500, 6000 show as "00:05", "01:05", "10:00", "25:00", "100:00" |
| `Watchdog.RefreshReplacesDeadline` | src/webapp/index.ts:48-56 | a refresh leaves exactly one deadline pending, 10 000 ms later, not yet due, and does not touch `connected` |
| `Watchdog.ExpireFiresOnce` | src/webapp/index.ts:52-54 | a due deadline fires: `connected` becomes false, nothing stays pending, and a later clock advance does nothing more |
| `Watchdog.FiresAtMostOncePerDeadline` | src/webapp/index.ts:48-56 | over any trace, expiries plus the deadline still pending never exceed the deadlines pending at the start plus the refreshes |
| `Watchdog.FiresBoundedByRefreshes` | src/webapp/index.ts:42-56 | from a new watcher, the callback runs at most once per `notifyConnected` |
| `Watchdog.TimelyRefreshesNeverFire` | src/webapp/index.ts:48-56 | refreshes less than TIMEOUT_SEC apart never let the watcher fire, and leave the one deadline 10 s after the last refresh |
| `Watchdog.SilenceFiresExactlyOnce` | src/webapp/index.ts:52-55 | with no refresh, a pending deadline fires exactly once if the clock reaches it (leaving the watcher disconnected with nothing pending) and never otherwise |
| `Watchdog.ElevenSecondsOfSilence` | src/webapp/index.ts:52-55 | eleven seconds after a refresh the watcher has fired once and is disconnected |
| `Watchdog.ConnectionTimeoutWatcher.constructor` | src/webapp/index.ts:42-46 | a new watcher is connected with no deadline |
| `Watchdog.ConnectionTimeoutWatcher.NotifyConnected` | src/webapp/index.ts:48-56 | the pending deadline is replaced by `now + 10 000`; `connected` unchanged |
| `Watchdog.ConnectionTimeoutWatcher.Advance` | src/webapp/index.ts:52-54 | reports whether the deadline was due; if so `connected` is false and no deadline is left |
| `Client.Decode` | src/webapp/index.ts:104-133 | decoding fails exactly for a `tick`, `start` or `stop` whose data does not parse; a decoded event has the delivery's type and its `sec` |
| `Client.DecodeEncode` | src/webapp/index.ts:97-136 | every event sent well-formed is decoded to itself |
| `Client.StatusFor` | src/webapp/index.ts:18-27 | the reconnect button is shown exactly when disconnected; the status text is empty exactly when connected and reads "Disconnected..." otherwise |
| `Client.StatusForInjective` | src/webapp/index.ts:18-27 | the view tells the two connection states apart |
| `Client.WithStatusIdempotent` | src/webapp/index.ts:18-27 | presenting the same flag twice is presenting it once, and presenting what is already shown changes nothing |
| `Client.NotificationCarriesTime` | src/webapp/index.ts:114-125 | a start/stop notification begins "Timer started by {name} (" / "Timer stopped by {name} (", ends with ")", and the text between reads back as `sec` |
| `Client.OnloadState` | src/webapp/index.ts:5-16 | after load: invariant holds, status empty, button hidden and enabled, watcher connected with deadline `now + 10 000`, one subscription, no notification |
| `Client.StepPreservesInv` | src/webapp/index.ts:77-136 | every input keeps the invariant: one open subscription that is the active one, status text and button in agreement, at most one deadline within 10 s, a cooldown within 5 s |
| `Client.RunPreservesInv` | src/webapp/index.ts:5-136 | any trace with a non-decreasing clock keeps the invariant |
| `Client.AlwaysOneSubscription` | src/webapp/index.ts:5-136 | whatever happens after load, exactly one subscription is open and it is the active one |
| `Client.EveryEventConnects` | src/webapp/index.ts:99-103 | any delivery on an open subscription, whatever its kind or data, refreshes the deadline to `now + 10 000`, clears the status and hides the button, without changing `connected` or the subscriptions |
| `Client.EventTimeText` | src/webapp/index.ts:104-133 | `tick`, `start` and `stop` with data show `secondToDisplayTime(sec)`; `over`, `alive` and data that does not parse leave the time text |
| `Client.EventNotifications` | src/webapp/index.ts:109-130 | the log gains exactly "Timer started by {name} ({MM:SS})", "Timer stopped by {name} ({MM:SS})" or "Time ended" when permission is granted, and nothing otherwise |
| `Client.TickAndAliveAreSilent` | src/webapp/index.ts:104-133 | `tick` and `alive` never add a notification |
| `Client.MalformedPayload` | src/webapp/index.ts:105-107 | unparsable data still runs `common` (watchdog refresh, connected status) but changes neither the time nor the notifications |
| `Client.AliveTwiceIsAliveOnce` | src/webapp/index.ts:131-133 | a second identical `alive` at the same instant leaves the page unchanged |
| `Client.StartScenario` | src/webapp/index.ts:109-117 | `start` with `sec` 1500 by "Ada" shows "25:00" and notifies "Timer started by Ada (25:00)" |
| `Client.NoPermissionNoNotifications` | src/webapp/index.ts:171-180 | over any trace in which no delivery had permission, the notification log does not change |
| `Client.ExpiryOnlySurfacesStatus` | src/webapp/index.ts:29-32 | on expiry the status reads "Disconnected...", the button is shown, the watcher is disconnected, and the subscriptions, time and notifications stay as they were (no automatic reconnect) |
| `Client.SilenceAfterLoad` | src/webapp/index.ts:5-16 | eleven silent seconds after load show "Disconnected..." and the reconnect button |
| `Client.TimelyEventsStayConnected` | src/webapp/index.ts:99-103 | while deliveries on the active subscription arrive less than 10 s apart, no input finds the watchdog's deadline due (`NoExpiry`), a deadline stays pending, `connected` keeps its value, and the page ends connected |
| `Client.ReconnectClosesBeforeOpening` | src/webapp/index.ts:77-87 | an accepted click closes the old active subscription and opens the next id as the only open one: that id is above every id open before, and the counter moves past it. It disables the button until `now + 5000`. Status text, button visibility, watchdog, time and notifications stay as the clock left them |
| `Client.StaleSubscriptionIgnored` | src/webapp/index.ts:82-86 | for the input right after a click replaces the subscription, a delivery on the old one changes nothing beyond the clock advancing |
| `Client.ClosedSubscriptionStaysClosed` | src/webapp/index.ts:82-86 | the subscription closed by a reconnect is not open after any later trace, so by `OnEvent` it never delivers to the page again |
| `Client.IdsNeverReused` | src/webapp/index.ts:97-98 | over any trace the next subscription id never decreases, and every subscription open afterwards was open before or is newly issued (at least the old next id) |
| `Client.ClickWhileDisabledIgnored` | src/webapp/index.ts:78-80 | a click while the button is disabled does nothing beyond the clock advancing |
| `Client.CooldownBetweenClicks` | src/webapp/index.ts:79-80 | a second click within 5 s opens no second subscription; from 5 s on it reconnects again |
| `Client.MobTimerClient.constructor` | src/webapp/index.ts:5-16 | `window.onload` builds the state `Onload` describes, satisfying the invariant |
| `Client.MobTimerClient.UpdateConnectionStatusAndButton` | src/webapp/index.ts:18-27 | sets the status text and button visibility to `StatusFor(isConnected)`, nothing else |
| `Client.MobTimerClient.UpdateTime` | src/webapp/index.ts:165-169 | sets the time text to `secondToDisplayTime(sec)`, nothing else |
| `Client.MobTimerClient.SendNotificationIfPossible` | src/webapp/index.ts:171-180 | appends the message to the log only when permission is granted |
| `Client.MobTimerClient.SetupEventSource` | src/webapp/index.ts:97-98 | opens a subscription with a fresh id, nothing else |
| `Client.MobTimerClient.AdvanceClock` | src/webapp/index.ts:29-32 | runs the due watchdog expiry (status "Disconnected...") and the due button re-enable, as `RunTimers` says |
| `Client.MobTimerClient.HandleEvent` | src/webapp/index.ts:97-136 | a delivery runs `common` and then its listener, as `OnEvent` says, keeping the invariant |
| `Client.MobTimerClient.Dispatch` | src/webapp/index.ts:104-133 | the listener part after `common` is `Reconcile` of the decoded event |
| `Client.MobTimerClient.HandleClickReconnectButton` | src/webapp/index.ts:77-87 | the click handler disables the button, closes, then reopens, as `OnClick` says, keeping the invariant |
| `Client.MobTimerClient.HandleTimeResponse` | src/webapp/index.ts:157-161 | a `/status` or `/toggle` response shows its `time`, as `OnTimeResponse` says |
| `Client.MobTimerClient.Wait` | src/webapp/index.ts:52-55 | time passing runs the due timers and nothing else |

## Notes on behaviour

- `connected` is set to true only when the watcher is constructed. A
  refresh never sets it back to true. After the first expiry it stays false
  for the life of the page, although later events clear the status line
  again. The code never reads the flag. The flag's name suggests every event
  should set it back to true; the code never does, and the model follows
  the code (`RefreshReplacesDeadline` and `EveryEventConnects`).
- The time format pads each field to two digits and truncates nothing. So
  the format is `MM:SS` only below 6000 seconds, not just below one hour.
  Above that the minutes field simply grows.
- A reconnect click neither refreshes the watchdog nor changes the status.
  After a reconnect the page keeps showing "Disconnected..." until the new
  subscription delivers an event. Watchdog expiry never reconnects by
  itself.

## Left out

- Page rendering (`querySelector`, `setAttribute('style', …)`, `textContent`): modelled as the record's fields.
- The `EventSource` transport and its automatic retry: subscriptions are opaque ids. A closed subscription delivers nothing, which is the guarantee `close()` gives.
- The `/reset` and `/toggle` requests and the name kept in `localStorage` (`setupTimerButtons`, `setupNameInput`, `getName`): only the effect of a response, `updateTime(json.time)`, is modelled (`OnTimeResponse`).
- The permission prompt and the notification options (`Notification.requestPermission`, `renotify`, `tag`, focus on click): permission is a boolean input on each delivery, and a notification is its body text appended to the log. The model assumes the browser has the `Notification` API. Without it, `Notification.requestPermission()` throws at the start of `window.onload`. The watcher, the stream and the status are then never set up, which `Onload` does not capture.
- Parsing inside `JSON.parse` and `parseInt`: a delivery carries either the parsed payload or nothing. `NaN`, negative and fractional seconds are outside the model. The text for a negative `sec` would come from JavaScript's truncating `%` and is not specified.
- JavaScript seconds are doubles, while `sec` and `time` are `nat` here. The model therefore matches the page only for safe integers, up to 2^53 - 1 (`Number.MAX_SAFE_INTEGER`).
- `${data.name}` for a payload without a name would render "undefined". The model takes the name as text that has already been rendered.
- Above 2^53 a double's text is its shortest round-tripping digits, not its exact value: `${2**60}` is "1152921504606847000". From 10^21 on, the text switches to exponent form. `Digits` gives the exact decimal text of every `nat`, so `DisplayTime.DigitsCorrect` matches `${n}` only for `n` up to 2^53 - 1. Likewise, `SecondToDisplayTime` matches only when `sec` and `sec / 60` are in that range.
- Real time: the model has no true concurrency between timers and stream events. At a shared instant, due timers run first.
- A click on the reconnect button while it is hidden: the model accepts such a click whenever the button is enabled, because the handler does not check visibility.
- `console.log` calls.
