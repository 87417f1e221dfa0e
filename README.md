# Baikal tour registration bot — a Dafny model

The bot walks one Telegram user through a tour registration: name, phone, a confirmation
summary, then a payment receipt (photo or document). When the receipt arrives, it notifies a
single operator chat. This project models one conversation's finite-state machine:

- the five steps: no state (`Idle`), `name`, `phone`, `confirm` and `payment`;
- the session data, an optional `name` and an optional `phone`;
- the eight handlers that move the conversation between steps;
- the dispatcher, which offers each update to the handlers in registration order, so the
  first handler whose filters all match wins;
- the texts and calls the bot sends, including the operator notification.

Files and modules:

- `messages.dfy` (`Messages`) holds inbound messages, button labels and callback strings, and
  the three keyboards. It also holds the confirmation summary, the operator text and the
  operator calls.
- `commands.dfy` (`Commands`) decides when a message is the `/start` command: the first
  whitespace-separated word of the text (or, without text, of the caption) is `/start` or
  `/start@`.
- `registration.dfy` (`Registration`) defines the FSM record, the events, the handlers' filters
  and the first-match routing.
- `transitions.dfy` (`Transitions`) is the pure specification of each handler (`OnGetName`, …),
  of one event (`Next`) and of a sequence of events (`Run`). It also defines the session
  invariant `Inv`.
- `handlers.dfy` (`Handlers`) holds the class `FsmContext` (one storage entry: `step`, `data`)
  and the handlers as imperative methods that call `SetState`, `UpdateName`, `UpdatePhone` and
  `Clear` in the source's order. It also holds `Dispatch`. Each method is proved to have the
  effect of its specification function.
- `properties.dfy` (`Properties`) holds the lemmas about that specification.

The surroundings of one event are a parameter, `Env`:

- the `ADMIN_ID` setting;
- the formatted clock reading;
- `replyOk`: whether the handler's calls to the user succeed. If they do not, the first of them
  raises, and nothing after it in that handler runs;
- `adminFailAt`: which operator call raises first. That error is caught and logged.

Four behaviours of the code worth stating:

- There is no phone validation or normalisation. `get_phone` stores the text exactly as typed
  (`ScenarioCollects` keeps any free-text phone as typed, and `PhoneAsTyped` shows that
  `89123456789` is free text).
- The `restart` button does not clear the data. It only sets the step to `name`, in every step
  (`RestartFromAnyStep`).
- `/start` does not reset a registration in progress. It greets and changes nothing
  (`StartCommandKeepsSession`).
- The acknowledgement after a receipt is sent before `state.clear()`. If that send raises, the
  conversation stays in `payment` with its data (`PaymentWithReceipt` assumes `replyOk`).

The handler for a `/start` command is registered first, and its filter also reads the caption.
So a photo captioned `/start` in the `payment` step is a greeting, not a receipt.

## Model

| member | source | states |
|---|---|---|
| Commands.TrimStart | main.py:68 | the result is a suffix of the text that does not start with whitespace |
| Commands.TrimStartDropsOnlySpaces | main.py:68 | every character dropped in front of that suffix is whitespace, so the suffix is what remains after the leading whitespace |
| Commands.LeadingWord | main.py:68 | the result is a prefix of the text with whitespace (or the end of the text) right after it |
| Commands.LeadingWordHasNoSpace | main.py:68 | that prefix holds no whitespace, so it is the first word of the text |
| Commands.FirstWord | main.py:68 | the first element of `split()` of the text: its first whitespace-free word after the leading whitespace, or empty for a blank text |
| Commands.IsStartCommand | main.py:68 | the `Command("start")` filter: the first word is `/` followed by `start`, with an empty mention (`@`) allowed |
| Commands.NotStartCommand | main.py:68 | a text that begins with neither whitespace nor `/` is never taken for the `/start` command |
| Commands.StartCommandAfterSpaces | main.py:68 | leading whitespace does not change whether a text is the `/start` command |
| Messages.UsernameTag | main.py:170 | the handle is shown as `@` + username when the username is set and non-empty, and as `@нет` otherwise |
| Messages.HasAttachment | main.py:156 | `message.photo or message.document`: a non-empty list of photo sizes or a document |
| Messages.MainKb | main.py:38-42 | the resized reply keyboard with the single trigger button |
| Messages.CancelKb | main.py:44-48 | the resized reply keyboard with the single cancel button |
| Messages.ConfirmKb | main.py:123-127 | the inline keyboard under the summary: a `confirm` button, a `restart` button, and the offer link |
| Messages.ConfirmationText | main.py:114-121 | the summary: its fixed labels with the stored name and phone between them |
| Messages.AdminText | main.py:165-174 | the operator text: the heading, the name, the phone label, the phone, then the details |
| Messages.AdminDetails | main.py:169-174 | the rest of the operator text: the user id in decimal, the `@` handle, the clock reading, and the fixed amounts |
| Messages.AdminSends | main.py:177-183 | the intended operator calls: none without `ADMIN_ID`; otherwise the text, then the last photo size, or else the document |
| Messages.Decimal | main.py:169 | `str(user.id)` is a non-empty string of digits with no leading zero, and it is `"0"` exactly for 0 |
| Messages.Attempted | main.py:178-185 | the operator calls made are a prefix of those intended: all of them, or up to and including the first that raises |
| Registration.FirstMatch | main.py:68-153 | returns the least position of a matching handler, or none when no handler in the list matches |
| Registration.Position | main.py:68-153 | the registration order (`Registered`): `start_cmd`, `start_registration`, `cancel_all`, `get_name`, `get_phone`, `restart`, `confirm_data`, `get_payment`; each handler stands at its position |
| Registration.Matches | main.py:68-153 | each handler's decorator filters: the `/start` command on text or caption; the trigger text; the cancel text; `name` or `phone` step with non-empty text; the `restart` callback; the `confirm` callback in `confirm`; any message in `payment` |
| Registration.Route | main.py:68-153 | the routed handler matches and no handler registered before it does; no handler is routed exactly when none matches |
| Registration.RouteTo | main.py:68-153 | conversely, a matching handler with no matching handler registered before it is the one that runs |
| Registration.RouteByOrder | main.py:68-153 | the same, with the handlers registered before it ruled out one by one in registration order |
| Registration.RouteNone | main.py:68-153 | an event that none of the eight handlers' filters match is routed nowhere |
| Transitions.OnStartCmd | main.py:68-75 | `start_cmd`: the greeting with the main keyboard; the record untouched |
| Transitions.OnStartRegistration | main.py:77-84 | `start_registration`: the name prompt, then step `name` with the data kept; a failed prompt leaves the record as it was |
| Transitions.OnCancelAll | main.py:86-89 | `cancel_all`: the record cleared, then the cancellation notice; cleared even when the notice fails |
| Transitions.OnGetName | main.py:91-103 | `get_name`: the cancel text cancels; otherwise the name stored, the phone prompt, then step `phone` |
| Transitions.OnGetPhone | main.py:105-130 | `get_phone`: the cancel text cancels; otherwise the phone stored verbatim, a missing name raises, then the summary and step `confirm` |
| Transitions.OnRestart | main.py:132-135 | `restart`: the callback answered, then the name prompt and step `name` with the data kept |
| Transitions.OnConfirmData | main.py:137-151 | `confirm_data`: the callback answered, the summary replaced by the payment instructions, then step `payment` |
| Transitions.OnGetPayment | main.py:153-195 | `get_payment`: a reprompt without an attachment; otherwise a missing name or phone raises, then the operator calls (failures swallowed), the acknowledgement, and the record cleared |
| Transitions.Next | main.py:68-195 | one event: the routed handler's outcome, or nothing sent and nothing changed when no handler matches |
| Transitions.Run | main.py:68-225 | a conversation's events handled one after another, each to completion |
| Transitions.Inv | main.py:117-168 | the session invariant: `phone` has a name; `confirm` and `payment` have a name and a phone; stored values are free text |
| Handlers.FsmContext.constructor | main.py:31-35 | a new conversation has no state and no data |
| Handlers.FsmContext.SetState | main.py:84 | `set_state` changes the step and keeps the data |
| Handlers.FsmContext.UpdateName | main.py:97 | `update_data(name=…)` sets the name and keeps the step and the phone |
| Handlers.FsmContext.UpdatePhone | main.py:111 | `update_data(phone=…)` sets the phone and keeps the step and the name |
| Handlers.FsmContext.Clear | main.py:88 | `clear` leaves no state and no data |
| Handlers.StartCmd | main.py:68-75 | greets with the main keyboard and leaves the record as it was |
| Handlers.StartRegistration | main.py:77-84 | prompts for the name, then moves to `name` with the data kept; a failed prompt leaves the step unchanged |
| Handlers.CancelAll | main.py:86-89 | clears step and data before replying, so the record is cleared even when the reply fails |
| Handlers.GetName | main.py:91-103 | stores the text as the name, then moves to `phone` after the prompt; the cancel text inside it cancels |
| Handlers.GetPhone | main.py:105-130 | stores the text verbatim as the phone, shows the summary of the stored name and phone, and moves to `confirm`; a missing name raises |
| Handlers.Restart | main.py:132-135 | answers the callback, then has the effect of `start_registration`: step `name`, data kept |
| Handlers.ConfirmData | main.py:137-151 | answers the callback, replaces the summary by the payment instructions, and moves to `payment` |
| Handlers.NotifyAdmin | main.py:177-185 | makes exactly the attempted prefix of the intended operator calls; with an operator set, the text is sent first; with none set, nothing is sent |
| Handlers.GetPayment | main.py:153-195 | without a photo or document it only reprompts; with one it notifies the operator, acknowledges and clears; a missing key raises before any send |
| Handlers.Dispatch | main.py:68-195 | runs the routed handler (nothing for an unmatched event); it keeps `Inv`, and then no missing-key error escapes |
| Properties.LabelsAreNotCommands | main.py:68-86 | neither button label is taken for the `/start` command |
| Properties.CancelRoute | main.py:86-89 | in every step the cancel text is routed to `cancel_all`, because neither `/start` nor the trigger claims it |
| Properties.CancelFromAnyStep | main.py:86-89 | in every step the cancel text reaches `cancel_all` and ends in `Idle` with no data |
| Properties.TriggerRoute | main.py:77-84 | in every step the trigger text is routed to `start_registration`, because it is not the `/start` command |
| Properties.TriggerFromAnyStep | main.py:77-84 | in every step the trigger text reaches `start_registration`, which sets `name` and keeps the stored data |
| Properties.RestartFromAnyStep | main.py:132-135 | in every step the `restart` callback sets `name` and keeps the stored name and phone |
| Properties.StartCommandKeepsSession | main.py:68-75 | in every step `/start` is handled by `start_cmd`, only greets, and changes nothing |
| Properties.NameStepStoresText | main.py:91-103 | in `name`, free text is stored verbatim as the name and the step becomes `phone` |
| Properties.PhoneStepStoresText | main.py:105-130 | in `phone`, free text is stored verbatim as the phone (no validation), the step becomes `confirm`, and the summary is built from the stored name and phone |
| Properties.SummaryShowsNameAndPhone | main.py:114-121 | the summary shows the name and the phone exactly, each at its place between the fixed labels |
| Properties.ConcatSlices | main.py:114-121 | each of the five pieces of a concatenation can be cut back out at its offset |
| Properties.ConfirmOnlyInConfirmStep | main.py:137-151 | `confirm` moves `confirm` to `payment`; in every other step it matches no handler and changes nothing |
| Properties.PaymentWithoutReceipt | main.py:153-158 | in `payment`, a message with neither photo nor document only brings the reprompt and changes nothing |
| Properties.PaymentWithReceipt | main.py:160-195 | in `payment`, a receipt ends in `Idle` with no data and no exception, after the operator calls and the acknowledgement, whatever the operator setting and whichever operator call fails |
| Properties.OperatorDeliveryIrrelevant | main.py:177-185 | the operator setting, the clock and the fate of the operator calls never change the resulting record or whether the handler raises |
| Properties.ApplyIrrelevant | main.py:177-185 | the same for each handler run on an event it matches |
| Properties.UnclaimedMessageIgnored | main.py:91-153 | in `Idle` and `confirm`, a message that is not the command, trigger or cancel text matches no handler and changes nothing |
| Properties.NonTextIgnored | main.py:91-110 | in `name` and `phone`, a message without text (and not a captioned `/start`) matches no handler and changes nothing |
| Properties.OtherCallbackIgnored | main.py:132-137 | callbacks other than `restart` and `confirm` match no handler in any step |
| Properties.FieldsOnlyFromFreeText | main.py:91-111 | a field takes a new value only in its own step, from the message text, and that text is never the cancel text, the trigger text or `/start` |
| Properties.HandlerWrites | main.py:88-195 | a handler either keeps the data, clears it, or stores the message text in its own step's field |
| Properties.RoutedTextIsFree | main.py:68-110 | the text the name or phone handler receives is free text, because the handlers ahead of them claim the rest |
| Properties.UnclaimedTextIsFree | main.py:68-89 | non-empty text that neither the command, the trigger nor the cancel handler matches is free text |
| Properties.NextPreservesInv | main.py:97-195 | every event keeps the invariant: `phone` has a name, and `confirm` and `payment` have a name and a phone, all free text |
| Properties.ApplyPreservesInv | main.py:97-195 | each handler, run on an event it matches, keeps the invariant when the field handlers receive free text |
| Properties.NoMissingKey | main.py:117-118 | under the invariant, no handler fails on `data['name']` or `data['phone']` |
| Properties.ApplyNoMissingKey | main.py:117-118 | the same for each handler run on an event it matches: only a transport error can be raised |
| Properties.RunPreservesInv | main.py:68-195 | any sequence of events, each handled to completion before the next starts, keeps the invariant |
| Properties.ReachableIsSafe | main.py:167-168 | when a conversation's events are handled one at a time, every reachable record satisfies the invariant, so the next event cannot fail on a missing key |
| Properties.CancelDuringNamePrompt | main.py:86-118 | a cancel handled while `get_name` waits on its prompt is undone by `set_state(phone)`: the record is `phone` with no data, breaks the invariant, and the next phone raises on `data['name']` |
| Properties.CancelDuringSummary | main.py:86-167 | a cancel handled while `get_phone` sends the summary is undone by `set_state(confirm)`: the record is `confirm` with no data, breaks the invariant, moves to `payment` on `confirm`, and the receipt then raises on `data['name']` with nothing sent |
| Properties.NoOperatorNoSends | main.py:177 | nothing is sent to the operator exactly when `ADMIN_ID` is unset or empty |
| Properties.PhotoPreferred | main.py:180-181 | with a photo, the notification is followed by the photo's largest (last) size, even when a document is also attached |
| Properties.DocumentWithoutPhoto | main.py:182-183 | without a photo, the notification is followed by the document |
| Properties.AdminTextShowsNameAndPhone | main.py:165-168 | the operator text shows the stored name and phone exactly, each at its place |
| Properties.DecimalRoundTrip | main.py:169 | the decimal rendering of the user id reads back as the id |
| Properties.MainKeyboardStartsRegistration | main.py:38-42 | pressing the main keyboard's button starts a registration in every step |
| Properties.CancelKeyboardCancels | main.py:44-48 | pressing the cancel keyboard's button cancels in every step |
| Properties.ConfirmKeyboardEvents | main.py:123-127 | the first button under the summary sends `confirm`, the second `restart`, and the third (a link) sends no event |
| Properties.ConfirmKeyboardButtons | main.py:123-127 | under the summary, the first button leads to `payment`, the second back to `name` with the data kept, and the third sends nothing |
| Properties.ScenarioCollects | main.py:77-130 | the trigger, then any free-text name and any free-text phone, reaches `confirm` with that name and that phone exactly as typed, when every reply succeeds (for the summary, when Telegram accepts its Markdown) |
| Properties.PhoneAsTyped | main.py:105-111 | a phone typed as `89123456789` and a name such as `Ivan Petrov` are free text, so they are stored as they are |
| Properties.ScenarioConfirms | main.py:137-158 | from `confirm` with any data, the `confirm` button reaches `payment`, and a text instead of a receipt then changes nothing |
| Properties.ScenarioReceipt | main.py:160-195 | in `payment` with a free-text name and phone, a photo sends the operator the operator text and the photo, acknowledges, and returns to `Idle` with no data, when no operator call fails (which includes Telegram accepting the operator text's Markdown) |

## Left out

- The keep-alive web server (`health_check`, `start_web`), process startup, webhook deletion and
  polling are network I/O and bootstrapping.
- Environment configuration and the bot, dispatcher and storage singletons are left out. The
  model holds one conversation's record directly, and `ADMIN_ID` is a parameter.
- Interleaving of several conversations is left out. Keying sessions belongs to the chat library.
- Transitions.Run: the events of one conversation are handled one at a time, each to completion.
  The dispatcher is created without `events_isolation` (main.py:25) and polling runs each update
  as its own task (main.py:225), so two updates of one chat can interleave at an `await`.
  `RunPreservesInv` and `ReachableIsSafe` hold only for serial handling. `CancelDuringNamePrompt`
  shows the record an interleaved cancel leaves at `get_name`. `CancelDuringSummary` shows the
  same at `get_phone`: a cancel during the summary (main.py:129) followed by `set_state(confirm)`
  (main.py:130) leaves `confirm` with no data. After `confirm`, the receipt raises on
  `data['name']` (main.py:167), so the operator is not notified and the user gets no
  acknowledgement (see Findings).
- Transitions.Env: whether a send succeeds is a free parameter, independent of what is sent. The
  summary (main.py:114-129) and the operator text (main.py:165-179) are sent with
  `parse_mode="Markdown"` and embed the name, the phone and the `@username` unescaped. Telegram
  rejects legacy Markdown with an unpaired `_`, `*`, `` ` `` or `[`. So for such data the send
  fails every time. A name such as `Ivan_Petrov` never gets past the summary. A sender whose handle
  is `ivan_petrov` never reaches the operator: that error is swallowed (main.py:184-185) and the
  user is still told the receipt was accepted. The model does not capture this dependence.
  `replyOk` also cannot say that a second call to the user fails after a first one succeeded.
  `restart` and `confirm_data` make two such calls: the callback answer, then the prompt or the
  edit. If the second call fails, the record and the exception are those the model gives. Only
  `sent`, which the model gives as the first call alone, would also hold the callback answer.
- Transport is not modelled, and neither is `logger.error`. Outbound calls are values of `Send`;
  whether they succeed is a parameter.
- The clock reading is a parameter (`now`), already formatted.
- Markdown rendering and the fixed tour, prompt and payment texts are presentation. Replies are
  named (`Greeting`, `AskName`, …). The summary and the operator text are spelled out because
  they carry the data.
- Commands.IsStartCommand: a `/start@name` command whose mention is non-empty is treated as no
  match. The library accepts it when the mention is this bot's username, which the model does
  not know.
- Messages.Decimal: user ids are natural numbers. Telegram user ids are positive, so a minus
  sign is never rendered.
- Handlers.Restart: the callback's message is assumed to be accessible. An inaccessible message
  would make `start_registration` raise before `set_state`. The model treats that like a failed
  reply.
- Handlers.GetPayment: the sender (`from_user`) is assumed present, which holds in private
  chats.

## Findings

| source | as written | input that shows it | evidently intended | confidence | as-written member | corrected member |
|---|---|---|---|---|---|---|
| main.py:97-103 | `get_name` stores the name, awaits the phone prompt, then sets `phone`; with no per-chat isolation (main.py:25, main.py:225) a `cancel_all` that runs during that await is overwritten by `set_state(phone)` | in step `name`, a name and then the cancel text sent before the phone prompt completes, then a phone | a conversation's updates handled one at a time, so a cancel leaves `Idle` and no record in `phone` lacks a name | medium, not executed | Properties.CancelDuringNamePrompt | Properties.ReachableIsSafe |
| main.py:111-130 | `get_phone` stores the phone, awaits the summary, then sets `confirm`; a `cancel_all` that runs during that await is overwritten by `set_state(confirm)` | in step `phone`, a phone and then the cancel text sent before the summary arrives, then `confirm` and a receipt photo | a conversation's updates handled one at a time, so no record in `confirm` or `payment` lacks a name or a phone | medium, not executed | Properties.CancelDuringSummary | Properties.ReachableIsSafe |
