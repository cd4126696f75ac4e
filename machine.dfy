/**
  The per-user form state machine as a function of the store and one update:
  the dispatcher (bot.go:41-53), `startHandler` (bot.go:69-107),
  `callbackHandler` (bot.go:125-229) and `messageHandler` (bot.go:231-434).
  Events are taken one at a time. The store maps a chat to its form; the
  outbox collects what the bot sends, in order.
 */
module Machine {
  import opened Wrappers
  import opened Strconv
  import opened Cashback
  import opened Patterns
  import opened Form
  import opened Telegram
  import opened Admin

  datatype State = State(forms: map<int, FormData>, outbox: seq<Outbound>)

  const StartCommand: string := "/start"
  const DoneCommand: string := "/done"

  /** The steps a form can be at: the eight text steps and the button-only step 2. */
  predicate ValidStep(step: int) {
    step == 1 || step == 11 || step == 2 || step == 21 || step == 211
    || step == 22 || step == 221 || step == 3 || step == 4
  }

  predicate StepsValid(forms: map<int, FormData>) {
    forall chat :: chat in forms ==> ValidStep(forms[chat].step)
  }

  /** What one handler does to the form of the chat it serves: the new form, or None to delete it, and what it sends. */
  datatype Effect = Effect(next: Option<FormData>, out: seq<Outbound>)

  function Say(chat: int, notice: Notice): Outbound {
    SendMessage(chat, notice, NoMarkup)
  }

  /** The text at step 11 parses as a positive amount that the chosen bracket accepts. */
  predicate AmountValid(range: string, text: string) {
    ParseInt(text).Some? && ParseInt(text).value > 0 && CashbackFor(range, ParseInt(text).value).Some?
  }

  /** The switch on `form.Step` of `messageHandler` (bot.go:242-433). */
  function OnMessage(f: FormData, m: Message): Effect {
    var chat := m.chatID;
    if f.step == 1 then
      Effect(Some(f.(depositRange := m.text, step := 11)),
             [Say(chat, RangeChosen(m.text, PercentShown(m.text)))])
    else if f.step == 11 then
      var parsed := ParseInt(m.text);
      if parsed.None? || parsed.value <= 0 then Effect(Some(f), [Say(chat, EnterValidAmount)])
      else
        match CashbackFor(f.depositRange, parsed.value)
        case None => Effect(Some(f), [Say(chat, AmountOutOfRange)])
        case Some(c) =>
          Effect(Some(f.(cashback := c, depositAmount := parsed.value, step := 2)),
                 [Say(chat, AmountAccepted(c)), SendMessage(chat, AskReturnType, ReturnTypeButtons)])
    else if f.step == 21 then
      if IsCardNumber(m.text) then Effect(Some(f.(cardNumber := m.text, step := 211)), [Say(chat, AskBank)])
      else Effect(Some(f), [Say(chat, BadCardNumber)])
    else if f.step == 211 then
      Effect(Some(f.(bank := m.text, step := 3)), [Say(chat, AskID)])
    else if f.step == 22 then
      Effect(Some(f.(cryptoNetwork := m.text, step := 221)), [Say(chat, AskWallet)])
    else if f.step == 221 then
      Effect(Some(f.(cryptoAddress := m.text, step := 3)), [Say(chat, AskID)])
    else if f.step == 3 then
      if IsExternalID(m.text) then
        var g := f.(id := m.text);
        Effect(Some(g), [SendMessage(chat, Preview(g), ConfirmButtons)])
      else Effect(Some(f), [Say(chat, BadID)])
    else if f.step == 4 then
      if |m.photo| > 0 then
        var g := f.(photos := f.photos + [m.photo[|m.photo| - 1]]);
        Effect(Some(g), if |g.photos| == 1 then [Say(chat, PhotoReceived)] else [])
      else if m.text == DoneCommand then
        if |f.photos| == 0 then Effect(Some(f), [Say(chat, NoPhotos)])
        else Effect(None, [Say(chat, ThankYou)] + AdminMessages(f, chat, m.username))
      else Effect(Some(f), [Say(chat, PhotosNotFiles)])
    else
      Effect(Some(f), [])
  }

  /** The `switch` on the static payloads of `callbackHandler` (bot.go:166-224). */
  function OnStepButton(f: FormData, chat: int, data: string): Effect {
    if data == ReturnCardData then
      Effect(Some(f.(returnType := CardReturn, step := 21)), [Say(chat, AskCardNumber)])
    else if data == ReturnCryptoData then
      Effect(Some(f.(returnType := CryptoReturn, step := 22)), [Say(chat, AskCryptoNetwork)])
    else if data == ConfirmData then
      Effect(Some(f.(step := 4)), [SendPictures(chat, Instructions)])
    else if data == EditData then
      Effect(Some(f.(step := 1)), [SendMessage(chat, StartOver, ReplyKeyboard(EditKeyboard))])
    else
      Effect(Some(f), [])
  }

  function Apply(s: State, chat: int, e: Effect): State {
    State(if e.next.Some? then s.forms[chat := e.next.value] else s.forms - {chat}, s.outbox + e.out)
  }

  /** `startHandler`: greet, offer the start keyboard, and put a fresh form in the store. */
  function StartEvent(s: State, m: Message): State {
    State(s.forms[m.chatID := NewForm],
          s.outbox + [SendPictures(m.chatID, Welcome(m.firstName)),
                      SendMessage(m.chatID, ChooseFromMenu, ReplyKeyboard(StartKeyboard))])
  }

  /** `messageHandler`: a message from a chat without a form is dropped. */
  function MessageEvent(s: State, m: Message): State {
    if m.chatID !in s.forms then s else Apply(s, m.chatID, OnMessage(s.forms[m.chatID], m))
  }

  /**
    `callbackHandler`: administrator payloads act on the id they carry and
    never touch the store; the step buttons act on the form of the user who
    pressed them, whatever its step, and are ignored without a form.
   */
  function CallbackEvent(s: State, q: CallbackQuery): State {
    match ParseAdminPayload(q.data)
    case Some(ContactUser(user)) =>
      State(s.forms, s.outbox + [Say(user, AdminWantsContact), AnswerCallbackQuery(q.id, Silent)])
    case Some(MarkPaid(user)) =>
      State(s.forms, s.outbox + [Say(user, PaymentDone), AnswerCallbackQuery(q.id, MarkedPaid)])
    case None =>
      if q.fromID !in s.forms then s
      else
        var t := Apply(s, q.fromID, OnStepButton(s.forms[q.fromID], q.fromID, q.data));
        t.(outbox := t.outbox + [AnswerCallbackQuery(q.id, Silent)])
  }

  /** The dispatcher: `/start` opens a session, other messages go to the step machine. */
  function Dispatch(s: State, u: Update): State {
    match u
    case MessageUpdate(m) => if m.text == StartCommand then StartEvent(s, m) else MessageEvent(s, m)
    case CallbackUpdate(q) => CallbackEvent(s, q)
  }

  function Run(s: State, us: seq<Update>): State
    decreases |us|
  {
    if us == [] then s else Run(Dispatch(s, us[0]), us[1..])
  }

  // ---------------------------------------------------------------------
  // The step rules, stated on the store.

  predicate AtStep(s: State, chat: int, step: int) {
    chat in s.forms && s.forms[chat].step == step
  }

  function AfterText(s: State, m: Message): State {
    Dispatch(s, MessageUpdate(m))
  }

  /** Step 1 stores any text verbatim as the bracket and moves to step 11; nothing else changes. */
  lemma RangeStep(s: State, m: Message)
    requires AtStep(s, m.chatID, 1) && m.text != StartCommand
    ensures AfterText(s, m).forms == s.forms[m.chatID := s.forms[m.chatID].(depositRange := m.text, step := 11)]
  {
  }

  /**
    Step 11 accepts exactly a positive integer inside the chosen bracket: it
    then records the amount and its cashback and moves to step 2; otherwise
    the store is left as it was.
   */
  lemma AmountStep(s: State, m: Message)
    requires AtStep(s, m.chatID, 11) && m.text != StartCommand
    ensures var f := s.forms[m.chatID];
      && (AmountValid(f.depositRange, m.text) ==>
            var amount := ParseInt(m.text).value;
            var c := CashbackFor(f.depositRange, amount).value;
            && AfterText(s, m).forms == s.forms[m.chatID := f.(depositAmount := amount, cashback := c, step := 2)]
            && 0 < c < amount
            && (f.depositRange == HighLabel ==> c <= HighCap))
      && (!AmountValid(f.depositRange, m.text) ==> AfterText(s, m).forms == s.forms)
  {
    var f := s.forms[m.chatID];
    if AmountValid(f.depositRange, m.text) {
      CashbackBounds(f.depositRange, ParseInt(m.text).value);
    }
  }

  /** Each reason the amount check gives for rejecting leaves the store unchanged. */
  lemma AmountRejections(s: State, m: Message)
    requires AtStep(s, m.chatID, 11) && m.text != StartCommand
    requires var f := s.forms[m.chatID];
      || ParseInt(m.text).None?
      || ParseInt(m.text).value <= 0
      || BracketOf(f.depositRange).None?
      || !InBracket(BracketOf(f.depositRange).value, ParseInt(m.text).value)
    ensures AfterText(s, m).forms == s.forms
  {
    if ParseInt(m.text).Some? {
      CashbackMatchesTable(s.forms[m.chatID].depositRange, ParseInt(m.text).value);
    }
  }

  /** A form whose bracket came from the start keyboard's first button can never leave step 11 by text. */
  lemma StartLowLabelIsStuck(s: State, m: Message)
    requires AtStep(s, m.chatID, 11) && m.text != StartCommand
    requires s.forms[m.chatID].depositRange == StartLowLabel
    ensures AfterText(s, m).forms == s.forms
  {
    if ParseInt(m.text).Some? {
      StartLowLabelRejectsEveryAmount(ParseInt(m.text).value);
    }
  }

  /** Step 21 accepts exactly sixteen ASCII digits, then records the card and moves to step 211. */
  lemma CardStep(s: State, m: Message)
    requires AtStep(s, m.chatID, 21) && m.text != StartCommand
    ensures var f := s.forms[m.chatID];
      && (IsCardNumber(m.text) ==> AfterText(s, m).forms == s.forms[m.chatID := f.(cardNumber := m.text, step := 211)])
      && (!IsCardNumber(m.text) ==> AfterText(s, m).forms == s.forms)
  {
  }

  /** Steps 211, 22 and 221 take any text as the bank, the network and the address. */
  lemma FreeTextSteps(s: State, m: Message)
    requires m.chatID in s.forms && m.text != StartCommand
    ensures var f := s.forms[m.chatID];
      && (f.step == 211 ==> AfterText(s, m).forms == s.forms[m.chatID := f.(bank := m.text, step := 3)])
      && (f.step == 22 ==> AfterText(s, m).forms == s.forms[m.chatID := f.(cryptoNetwork := m.text, step := 221)])
      && (f.step == 221 ==> AfterText(s, m).forms == s.forms[m.chatID := f.(cryptoAddress := m.text, step := 3)])
  {
  }

  /** Step 3 accepts exactly a non-empty digit string as the ID, and the step stays 3. */
  lemma IDStep(s: State, m: Message)
    requires AtStep(s, m.chatID, 3) && m.text != StartCommand
    ensures var f := s.forms[m.chatID];
      && (IsExternalID(m.text) ==>
            && AfterText(s, m).forms == s.forms[m.chatID := f.(id := m.text)]
            && AtStep(AfterText(s, m), m.chatID, 3))
      && (!IsExternalID(m.text) ==> AfterText(s, m).forms == s.forms)
  {
  }

  /**
    Step 4: a photo appends the file of its last size and changes nothing
    else; `/done` with no photos changes nothing; `/done` with photos deletes
    the form and hands it to the administrator; anything else changes nothing.
   */
  lemma PhotoStep(s: State, m: Message)
    requires AtStep(s, m.chatID, 4) && m.text != StartCommand
    ensures var f := s.forms[m.chatID];
      && (|m.photo| > 0 ==>
            AfterText(s, m).forms == s.forms[m.chatID := f.(photos := f.photos + [m.photo[|m.photo| - 1]])])
      && (|m.photo| == 0 && m.text == DoneCommand && f.photos == [] ==> AfterText(s, m).forms == s.forms)
      && (|m.photo| == 0 && m.text == DoneCommand && f.photos != [] ==>
            && AfterText(s, m).forms == s.forms - {m.chatID}
            && AfterText(s, m).outbox == s.outbox + [Say(m.chatID, ThankYou)] + AdminMessages(f, m.chatID, m.username))
      && (|m.photo| == 0 && m.text != DoneCommand ==> AfterText(s, m).forms == s.forms)
  {
  }

  /** Text at step 2, or at any step without a case, is ignored: nothing changes and nothing is sent. */
  lemma UnhandledStepIgnored(s: State, m: Message)
    requires m.chatID in s.forms && m.text != StartCommand
    requires var k := s.forms[m.chatID].step;
      k != 1 && k != 11 && k != 21 && k != 211 && k != 22 && k != 221 && k != 3 && k != 4
    ensures AfterText(s, m) == s
  {
    assert s.forms[m.chatID := s.forms[m.chatID]] == s.forms;
  }

  // ---------------------------------------------------------------------
  // The store's lifecycle.

  /** `/start` replaces whatever the chat had with a fresh form at step 1. */
  lemma StartResets(s: State, m: Message)
    requires m.text == StartCommand
    ensures AfterText(s, m).forms == s.forms[m.chatID := NewForm]
    ensures AtStep(AfterText(s, m), m.chatID, 1)
  {
  }

  /** Without a form, every message other than `/start` is dropped without a reply. */
  lemma NoFormMessageIgnored(s: State, m: Message)
    requires m.chatID !in s.forms && m.text != StartCommand
    ensures AfterText(s, m) == s
  {
  }

  /** Without a form, a step button is dropped, not even answered. */
  lemma NoFormButtonIgnored(s: State, q: CallbackQuery)
    requires q.fromID !in s.forms && ParseAdminPayload(q.data).None?
    ensures Dispatch(s, CallbackUpdate(q)) == s
  {
  }

  /** Administrator payloads never read or change the store. */
  lemma AdminPayloadKeepsForms(s: State, q: CallbackQuery)
    requires ParseAdminPayload(q.data).Some?
    ensures Dispatch(s, CallbackUpdate(q)).forms == s.forms
    ensures Dispatch(s, CallbackUpdate(q)).outbox[|s.outbox|].chatID == ParseAdminPayload(q.data).value.userID
  {
  }

  /**
    The step buttons act on the presser's form whatever its step: the payout
    buttons set the return type and the card or crypto step, `confirm_data`
    sets step 4, and `edit_data` sets step 1 and keeps every other field.
   */
  lemma StepButtons(s: State, q: CallbackQuery)
    requires q.fromID in s.forms
    ensures var f := s.forms[q.fromID];
      var t := Dispatch(s, CallbackUpdate(q));
      && (q.data == ReturnCardData ==> t.forms == s.forms[q.fromID := f.(returnType := CardReturn, step := 21)])
      && (q.data == ReturnCryptoData ==> t.forms == s.forms[q.fromID := f.(returnType := CryptoReturn, step := 22)])
      && (q.data == ConfirmData ==> t.forms == s.forms[q.fromID := f.(step := 4)])
      && (q.data == EditData ==> t.forms == s.forms[q.fromID := f.(step := 1)])
      && (ParseAdminPayload(q.data).None? ==> t.outbox[|t.outbox| - 1] == AnswerCallbackQuery(q.id, Silent))
  {
    StepPayloadsAreNotAdminPayloads();
  }

  /** `edit_data` keeps the bracket, amount, payout details, ID and photos of the form. */
  lemma EditKeepsFields(s: State, q: CallbackQuery)
    requires q.fromID in s.forms && q.data == EditData
    ensures var f := s.forms[q.fromID];
      var g := Dispatch(s, CallbackUpdate(q)).forms[q.fromID];
      && g.step == 1
      && g.depositRange == f.depositRange && g.depositAmount == f.depositAmount && g.cashback == f.cashback
      && g.returnType == f.returnType && g.bank == f.bank && g.cardNumber == f.cardNumber
      && g.cryptoNetwork == f.cryptoNetwork && g.cryptoAddress == f.cryptoAddress
      && g.id == f.id && g.photos == f.photos
  {
    StepPayloadsAreNotAdminPayloads();
  }

  /** An event only touches the form of the chat it is keyed by: `Chat.ID` for messages, `From.ID` for buttons. */
  lemma OtherChatsUntouched(s: State, u: Update, other: int)
    requires u.MessageUpdate? ==> other != u.message.chatID
    requires u.CallbackUpdate? ==> other != u.query.fromID
    ensures var t := Dispatch(s, u);
      && (other in t.forms <==> other in s.forms)
      && (other in s.forms ==> t.forms[other] == s.forms[other])
  {
  }

  /** The outbox only grows. */
  lemma OutboxGrows(s: State, u: Update)
    ensures |s.outbox| <= |Dispatch(s, u).outbox|
    ensures Dispatch(s, u).outbox[..|s.outbox|] == s.outbox
  {
  }

  /** Every form in the store is at one of the nine steps, after any update. */
  lemma StepsStayValid(s: State, u: Update)
    requires StepsValid(s.forms)
    ensures StepsValid(Dispatch(s, u).forms)
  {
    match u
    case MessageUpdate(m) =>
    case CallbackUpdate(q) =>
      StepPayloadsAreNotAdminPayloads();
  }

  lemma {:induction false} RunStepsValid(s: State, us: seq<Update>)
    requires StepsValid(s.forms)
    ensures StepsValid(Run(s, us).forms)
    decreases |us|
  {
    if us != [] {
      StepsStayValid(s, us[0]);
      RunStepsValid(Dispatch(s, us[0]), us[1..]);
    }
  }

  /** After a form is handed over, the chat's next message other than `/start` is ignored. */
  lemma FinishedFormGone(s: State, m: Message, next: Message)
    requires AtStep(s, m.chatID, 4) && |m.photo| == 0 && m.text == DoneCommand
    requires s.forms[m.chatID].photos != []
    requires next.chatID == m.chatID && next.text != StartCommand
    ensures m.chatID !in AfterText(s, m).forms
    ensures AfterText(AfterText(s, m), next) == AfterText(s, m)
  {
  }
}
