# Cashback form bot: a Dafny model

The bot (bot.go) is a Telegram bot that walks each user through a deposit
cashback request. The user picks a deposit bracket, enters the exact amount
and is told the cashback it earns. The user then chooses a payout to a bank
card or a crypto wallet, enters the payout details and an external ID, and
uploads payment screenshots. On `/done` the bot hands the whole request to
one administrator: the photos as a captioned media group, plus a keyboard
whose "paid" button tells the user the payout was made.

The model covers the core of that file:

- `UserForm` and its store `userForms`, keyed by chat id;
- the dispatcher that routes every update;
- `startHandler`, `messageHandler` with its step-indexed `switch`, and
  `callbackHandler` with its administrator and step buttons;
- `sendFormToAdmin`, which formats the summary, builds the media group and
  the administrator keyboard.

It is built in two layers.

- **`Machine`** is the specification. It is a pure state machine over a
  `State` of `forms: map<int, FormData>` and an `outbox` of everything sent
  to Telegram. For every update, `Dispatch` gives the next state. The lemmas
  beside it state what each step accepts, rejects and records.
- **`Bot`** is the handlers as they run. `UserForm` is a class whose fields
  the handlers assign in place. `FormBot` holds the map of form objects and
  the outbox. Each handler method is proved to move the objects exactly as
  `Machine` moves its values: `ensures Abstract() == Dispatch(old(Abstract()), u)`.
  Its invariant `Valid()` says that no two chats share a form object and that
  every form is at one of the nine steps.

The supporting modules are:

- `Strconv`: `strconv.Atoi`, `ParseInt` and `Itoa`/`FormatInt`, in base 10;
- `Patterns`: the two regular expressions;
- `Cashback`: the bracket table;
- `Form`: the value snapshot of a `UserForm`;
- `Telegram`: updates, and outbound calls as values;
- `Admin`: the administrator notification;
- `Overflow`: 64-bit arithmetic, for the finding below;
- `Scenario`: whole conversations run through the machine.

Message wording is not modelled. Each reply is an opaque `Notice`
constructor that names the message the source sends. Its data, such as the
cashback in "amount accepted", is kept exactly.

The code has these quirks; each is proved as a lemma:

- "Edit" only sets the step back to 1. Every entered field is kept
  (`Machine.EditKeepsFields`).
- Entering the ID keeps the form at step 3; only the confirm button moves it
  on (`Machine.IDStep`).
- The step buttons act whatever the current step is (`Machine.StepButtons`).
  So an empty form can reach the administrator
  (`Scenario.EmptyFormCanBeHandedOver`).
- The start keyboard's low label differs from the one the amount check knows.
  A form started from that button can never get past the amount step by
  text (`Machine.StartLowLabelIsStuck`).
- Step 1 stores any text as the bracket (`Machine.RangeStep`).
- Text at step 2 is ignored (`Machine.UnhandledStepIgnored`).
- The percent display knows the mid label "от 1000 до 1499 ₽", but the amount
  check knows "от 1001 до 1499 ₽". The mid label the amount check accepts
  shows no percent, and the one that shows 50% accepts no amount
  (`Cashback.PercentShownVersusTable`).
- The cashback is not always the bracket's cashback for the amount. "Edit"
  keeps the amount and the cashback, a new bracket is stored, and the old
  preview's confirm button still works. The administrator can then receive a
  top-bracket form with the low bracket's cashback of 560 for a deposit of
  800, which the top bracket rejects (`Scenario.StaleConfirmMismatch`).
- The payout details are not only those of the chosen payout. Pressing the
  crypto button after a card number was entered keeps the card number under
  return type "crypto" (`Scenario.StalePayoutMismatch`).
- A "paid" press whose id does not parse sends the payment notice to chat 0
  (`Admin.UnparsablePaidTargetsChatZero`).

## Model

| member | source | states |
|---|---|---|
| Strconv.ParseInt | bot.go:267 | `strconv.Atoi`: it accepts exactly a sign followed by digits, or digits alone (`Strconv.ParseAcceptsOnlyNumerals` one way, `Strconv.SignedParses` and `Strconv.ParseDigits` the other, with the value); its round trip with printing is `Strconv.ParseFormat` |
| Strconv.ParseDigits | bot.go:267 | a non-empty digit string parses to the value of its digits |
| Strconv.SignedParses | bot.go:267 | a `+` or `-` followed by digits parses to the signed value of the digits |
| Strconv.ParseExamples | bot.go:267 | "+800" parses to 800, "-05" to -5, "800" to 800; "8 00", "+" and the empty text are refused |
| Strconv.ParseIntOrZero | bot.go:133 | a digit string gives its value, and any result other than 0 comes from a successful parse, so a refused string can only give 0 |
| Strconv.HasPrefix | bot.go:131 | `strings.HasPrefix`, which picks the branch of `callbackHandler`; `Admin.NotPrefixAt` and `Admin.StepPayloadsAreNotAdminPayloads` state when it fails, `Admin.PaidPayloadRoundTrip` when it holds |
| Strconv.TrimPrefix | bot.go:132 | the prefix followed by the result is the input whenever the input starts with the prefix |
| Strconv.FormatNat | bot.go:310 | `strconv.Itoa` of a natural number is a non-empty digit string without a leading zero whose decimal value is the number |
| Strconv.FormatInt | bot.go:465 | the decimal form is non-empty, and it is all digits exactly when the number is non-negative |
| Strconv.ParseFormat | bot.go:465 | parsing the decimal form of any integer gives that integer back |
| Strconv.ParseAcceptsOnlyNumerals | bot.go:267 | `strconv.Atoi` succeeds only on an optional sign followed by at least one digit |
| Strconv.FormatDigits | bot.go:267 | a canonical digit string (no leading zero) is exactly the printed form of its value |
| Cashback.CashbackFor | bot.go:276-296 | the amount check; `Cashback.CashbackMatchesTable` and `Cashback.CashbackBounds` state what it accepts and computes |
| Cashback.PercentShown | bot.go:247-257 | the percent display; `Cashback.PercentShownVersusTable` relates it to the amount check |
| Cashback.CashbackMatchesTable | bot.go:276-296 | the amount check accepts exactly the amounts inside the chosen bracket's bounds, and then gives the bracket's rate with its cap |
| Cashback.CashbackBounds | bot.go:276-296 | an accepted amount earns a positive cashback below the deposit, at most 1500 in the top bracket |
| Cashback.CashbackMonotone | bot.go:276-296 | within one bracket a larger deposit never earns a smaller cashback |
| Cashback.CashbackExamples | bot.go:276-296 | 800 low gives 560, 1200 mid gives 600, 10000 top is capped at 1500, 1500 top gives 450 |
| Cashback.StartLowLabelRejectsEveryAmount | bot.go:72 | the low label on the start keyboard matches no case of the amount check, so every amount is rejected |
| Cashback.PercentShownVersusTable | bot.go:247-257 | the percent shown agrees with the rate for the low and top labels; the accepted mid label shows none, and the mid label that shows 50% accepts nothing |
| Overflow.CashbackAsWritten | bot.go:276-296 | the amount check on 64-bit integers; `Overflow.AsWrittenAgreesBelowOverflow` and `Overflow.OverflowGivesNegativeCashback` relate it to `Cashback.CashbackFor` |
| Overflow.AsWrittenAgreesBelowOverflow | bot.go:276-296 | with 64-bit products and truncating division, the check as written equals the mathematical one while `amount*30` fits in 64 bits |
| Overflow.OverflowGivesNegativeCashback | bot.go:288-295 | a top-bracket amount of 400000000000000000 gives the negative cashback -64467440737095516 as written, where the table gives 1500 |
| Patterns.PatternExamples | bot.go:316 | `^\d{16}$` and `^\d+$` accept the sample card number and ID and reject short, lettered and empty input |
| Patterns.IsCardNumber | bot.go:316 | `^\d{16}$` as a predicate; `Patterns.CardPatternMatches` proves it equal to the reference matcher |
| Patterns.IsExternalID | bot.go:357 | `^\d+$` as a predicate; `Patterns.IDPatternMatches` proves it equal to the reference matcher |
| Patterns.CardPatternMatches | bot.go:316 | the card check accepts exactly the strings that sixteen `\d` tokens consume with nothing left over |
| Patterns.IDPatternMatches | bot.go:357 | the ID check accepts exactly the strings that one `\d` token followed by `\d*` consumes with nothing left over |
| Admin.SummaryText | bot.go:439-452 | the administrator summary; `Admin.SummaryStructure` and `Admin.SummaryTextAsWritten` state its lines and its text |
| Admin.MediaList | bot.go:473-485 | the media group; `Admin.MediaListShape` states its items and captions |
| Admin.PaidPayload | bot.go:465 | the "paid" payload; `Admin.PaidPayloadRoundTrip` proves it decodes to the user it was built for |
| Admin.AdminKeyboard | bot.go:454-469 | the chat link and the "paid" button; `Admin.AdminMessagesShape` proves the button decodes to the submitting user |
| Admin.NotPrefixAt | bot.go:131 | a string differing from a prefix at some position inside both does not start with it |
| Admin.ParseAdminPayload | bot.go:131-146 | the two administrator prefixes, `reply_` first; `Admin.PaidPayloadRoundTrip`, `Admin.UnparsablePaidTargetsChatZero` and `Admin.StepPayloadsAreNotAdminPayloads` state what it decodes |
| Admin.AdminMessages | bot.go:471-504 | what `sendFormToAdmin` sends; `Admin.AdminMessagesShape` states it |
| Admin.UnparsablePaidTargetsChatZero | bot.go:144-151 | a `paid_` payload whose tail does not parse decodes to "mark paid" for user 0, so the payment notice goes to chat 0 |
| Admin.SummaryStructure | bot.go:439-452 | the summary has deposit, return type and cashback first and ID last; the bank and card lines appear exactly for "card", the network and address lines exactly for "crypto" |
| Admin.SummaryTextAsWritten | bot.go:439-452 | the summary text is the header followed by the caption/value lines in the three shapes the source concatenates |
| Admin.MediaListShape | bot.go:473-485 | one media item per photo, in order; only the first carries the summary caption |
| Admin.BuildMedia | bot.go:473-485 | the loop builds exactly the media list specified by `MediaList` |
| Admin.PaidPayloadRoundTrip | bot.go:144-146 | the "paid" payload built for a user decodes to "mark paid" for that same user |
| Admin.StepPayloadsAreNotAdminPayloads | bot.go:131-146 | none of the four step-button payloads starts with `reply_` or `paid_` |
| Admin.SendFormToAdmin | bot.go:437-505 | sends exactly `AdminMessages`: with photos, the media group and then the "form above" message (`FormAbove`) with the keyboard; without photos, the summary with the keyboard |
| Admin.AdminMessagesShape | bot.go:471-504 | everything goes to the administrator; the media group holds exactly the form's photos with the summary on the first; the "paid" button names the user |
| Machine.OnMessage | bot.go:242-433 | the step switch on one form; its cases are stated by `Machine.RangeStep`, `Machine.AmountStep`, `Machine.CardStep`, `Machine.FreeTextSteps`, `Machine.IDStep`, `Machine.PhotoStep` and `Machine.UnhandledStepIgnored` |
| Machine.OnStepButton | bot.go:166-224 | the four step buttons on one form; `Machine.StepButtons` and `Machine.EditKeepsFields` state them |
| Machine.StartEvent | bot.go:69-107 | `/start`; `Machine.StartResets` states it |
| Machine.MessageEvent | bot.go:231-240 | the form lookup by `Chat.ID`; `Machine.NoFormMessageIgnored` and the step lemmas state it |
| Machine.CallbackEvent | bot.go:125-229 | administrator payloads first, then the lookup by `From.ID`; `Machine.AdminPayloadKeepsForms`, `Machine.NoFormButtonIgnored` and `Machine.StepButtons` state it |
| Machine.Dispatch | bot.go:41-53 | the dispatcher; `Machine.OtherChatsUntouched`, `Machine.OutboxGrows` and `Machine.StepsStayValid` hold for every update it routes |
| Machine.Apply | bot.go:426 | the store write and the `delete(userForms, chatID)` of a hand-over; `Machine.PhotoStep` states the delete and `Machine.OtherChatsUntouched` that no other entry changes |
| Machine.RangeStep | bot.go:243-245 | step 1 stores the text verbatim as the bracket and moves to step 11, changing nothing else |
| Machine.AmountStep | bot.go:266-307 | step 11 records the amount and its bounded cashback and moves to step 2 exactly for a positive integer in the bracket; otherwise the store is unchanged |
| Machine.AmountRejections | bot.go:267-304 | a non-number, a non-positive number, an unknown bracket or an amount outside it each leave the store unchanged |
| Machine.StartLowLabelIsStuck | bot.go:276-304 | a form whose bracket is the start keyboard's low label stays as it is under any text at step 11 |
| Machine.CardStep | bot.go:314-329 | step 21 records the card and moves to 211 exactly for sixteen ASCII digits, else nothing changes |
| Machine.FreeTextSteps | bot.go:330-352 | steps 211, 22 and 221 record any text as bank, network and address and move to 3, 221 and 3 |
| Machine.IDStep | bot.go:355-366 | step 3 records the ID exactly for a non-empty digit string and stays at step 3, else nothing changes |
| Machine.PhotoStep | bot.go:403-432 | at step 4 a photo appends its largest size; `/done` without photos changes nothing; `/done` with photos deletes the form and sends thanks and the administrator messages |
| Machine.UnhandledStepIgnored | bot.go:242-433 | text at a step the switch has no case for, step 2 among them, changes nothing and sends nothing |
| Machine.StartResets | bot.go:106 | `/start` replaces the chat's form, whatever it was, with a fresh form at step 1 |
| Machine.NoFormMessageIgnored | bot.go:236-240 | a message other than `/start` from a chat without a form changes nothing |
| Machine.NoFormButtonIgnored | bot.go:161-164 | a step button from a user without a form changes nothing and is not answered |
| Machine.AdminPayloadKeepsForms | bot.go:131-159 | `reply_` and `paid_` presses never change the store, and their first message goes to the user id in the payload |
| Machine.StepButtons | bot.go:166-228 | the four step buttons set return type and step 21 or 22, step 4, or step 1, whatever the current step; the press is answered last |
| Machine.EditKeepsFields | bot.go:207-208 | `edit_data` sets step 1 and keeps every other field of the form |
| Machine.OtherChatsUntouched | bot.go:125-240 | an update changes only the form of its own key: `Chat.ID` for messages, `From.ID` for buttons |
| Machine.OutboxGrows | bot.go:41-53 | every update keeps everything already sent, as a prefix of the new outbox |
| Machine.StepsStayValid | bot.go:106-433 | after any update, every stored form is at one of the nine steps the handlers assign |
| Machine.RunStepsValid | bot.go:41-53 | after any sequence of updates, every stored form is at one of the nine steps |
| Machine.FinishedFormGone | bot.go:426 | once a form is handed over, the chat's next message other than `/start` is ignored |
| Bot.UserForm.constructor | bot.go:106 | a new form has every field empty or zero, at step 1 |
| Bot.UserForm.OnText | bot.go:242-433 | the switch on the form's step moves the fields as `Machine.OnMessage` and reports whether the form was handed over |
| Bot.UserForm.OnAmount | bot.go:266-312 | the amount step moves the fields as `Machine.OnMessage` and ends at step 11 or 2 |
| Bot.UserForm.OnProof | bot.go:403-432 | the photo step moves the fields as `Machine.OnMessage` and stays at step 4 |
| Bot.UserForm.OnButton | bot.go:166-224 | the step buttons move the fields as `Machine.OnStepButton` and keep the step valid |
| Bot.FormBot.constructor | bot.go:35 | the store starts empty and nothing has been sent |
| Bot.FormBot.StartHandler | bot.go:69-107 | keeps the invariant; the new store and outbox are `Machine.StartEvent` of the old |
| Bot.FormBot.MessageHandler | bot.go:231-434 | keeps the invariant; the new store and outbox are `Machine.MessageEvent` of the old; every other chat keeps the same form object, whose fields keep their values |
| Bot.FormBot.CallbackHandler | bot.go:125-229 | keeps the invariant; the new store and outbox are `Machine.CallbackEvent` of the old; every other user keeps the same form object |
| Bot.FormBot.Handle | bot.go:41-53 | routes `/start`, other messages and button presses so that the new state is `Machine.Dispatch` of the old |
| Scenario.EndToEnd | bot.go:69-505 | a full card conversation for 800 leaves no form, told the user 560, and gave the administrator the captioned photo and a "paid" button for that user |
| Scenario.EmptyFormCanBeHandedOver | bot.go:182-183 | confirm, a photo and `/done` on a fresh form hand the administrator a form with no bracket, amount, payout or ID |
| Scenario.StaleConfirmMismatch | bot.go:182-208 | edit, a new top bracket, the old confirm button, a photo and `/done` hand the administrator a top-bracket form with cashback 560 for 800, an amount the top bracket rejects |
| Scenario.StalePayoutMismatch | bot.go:166-180 | card, a card number, then the crypto button leave the card number in a form whose return type is crypto |

## Left out

- Telegram I/O is not modelled. The bot client, contexts, the transport and
  the results and errors of the send calls are left out. A send is appended
  to the outbox as a value.
- Message wording is not modelled. Replies are `Notice` constructors. The
  welcome and instruction pictures become `SendPictures` with no URLs. Button
  captions are left out; only the callback payloads and the chat link are kept.
- The preview shown after the ID (bot.go:367-399) is an opaque
  `Preview(form)`. Its text is not rendered.
- `main` is not modelled: loading the environment file, the token, signal
  handling and starting the bot. Only its dispatcher is kept.
- `defaultHandler` is not modelled. It handles updates that carry neither a
  message nor a callback query, and `Update` has no such case.
- Concurrency is not modelled. The library may run handlers concurrently on
  the unguarded map. The model applies updates one at a time, in order.
- `log.Printf` calls are not modelled. They have no effect on the state.
- Strconv.ParseIntOrZero: in the 64-bit range errors, `strconv.ParseInt`
  returns the clamped value, not 0. Integers are unbounded here, so the model
  has no range errors.
- Machine.AmountStep: `strconv.Atoi` rejects out-of-range numbers, and the
  products wrap around modulo 2^64. The main model uses unbounded integers.
  `Overflow` models the 64-bit behaviour.
- Photos are file ids. Of each photo's sizes, only the last size is kept,
  which is what an appended photo records.
- The administrator's identity is not checked. The `reply_`/`paid_` actions
  accept a press from anyone, as in the source.

## Findings

| source | as written | input that shows it | evidently intended | confidence | as-written member | corrected member |
|---|---|---|---|---|---|---|
| bot.go:288-295 | `form.Cashback = amount * 30 / 100` on a 64-bit `int`, then capped at 1500 only from above | bracket "1500+ ₽" and amount 400000000000000000: `amount*30` wraps modulo 2^64 and the cashback becomes -64467440737095516 | a positive cashback of at most 1500 for every accepted amount | high; not executed | Overflow.OverflowGivesNegativeCashback | Cashback.CashbackBounds |
