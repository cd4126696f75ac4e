/**
  One complete conversation, from `/start` to `/done`, run through the state
  machine: a low-bracket deposit of 800 paid back to a card.
 */
module Scenario {
  import opened Wrappers
  import opened Strconv
  import opened Cashback
  import opened Form
  import opened Telegram
  import opened Admin
  import opened Machine

  const Chat: int := 777

  function Text(t: string): Update {
    MessageUpdate(Message(Chat, "Ivan", "ivan", t, []))
  }

  function Photo(sizes: seq<string>): Update {
    MessageUpdate(Message(Chat, "Ivan", "ivan", "", sizes))
  }

  function Press(data: string): Update {
    CallbackUpdate(CallbackQuery("query", Chat, data))
  }

  /** The conversation, with the bracket chosen from the `edit_data` keyboard's label. */
  const Conversation: seq<Update> := [
    Text(StartCommand), Text(LowLabel), Text("800"), Press(ReturnCardData),
    Text("1111222233334444"), Text("Sber"), Text("123456"), Press(ConfirmData),
    Photo(["proof-small", "proof"]), Text(DoneCommand)]

  /** The form as it is handed over. */
  const Finished: FormData :=
    FormData(LowLabel, 800, CardReturn, 560, "Sber", "1111222233334444", "", "", "123456", ["proof"], 4)

  lemma {:induction false} RunCons(s: State, us: seq<Update>)
    requires us != []
    ensures Run(s, us) == Run(Dispatch(s, us[0]), us[1..])
  {
  }

  /** Each update of the conversation, on the one-form store it finds. */
  lemma StepStart(s: State)
    requires s.forms == map[]
    ensures Dispatch(s, Conversation[0]).forms == map[Chat := NewForm]
  {
    StartResets(s, Conversation[0].message);
  }

  lemma StepRange(s: State)
    requires s.forms == map[Chat := NewForm]
    ensures Dispatch(s, Conversation[1]).forms == map[Chat := NewForm.(depositRange := LowLabel, step := 11)]
  {
    RangeStep(s, Conversation[1].message);
  }

  lemma StepAmount(s: State)
    requires s.forms == map[Chat := NewForm.(depositRange := LowLabel, step := 11)]
    ensures var t := Dispatch(s, Conversation[2]);
      && t.forms == map[Chat := s.forms[Chat].(depositAmount := 800, cashback := 560, step := 2)]
      && Say(Chat, AmountAccepted(560)) in t.outbox
  {
    ParseDigits("800");
    assert DigitsValue("800") == 800 by {
      assert "800"[..2] == "80" && "80"[..1] == "8";
    }
    assert CashbackFor(LowLabel, 800) == Some(560);
    AmountStep(s, Conversation[2].message);
  }

  lemma StepCard(s: State, f: FormData)
    requires s.forms == map[Chat := f] && f.step == 2
    ensures Dispatch(s, Conversation[3]).forms == map[Chat := f.(returnType := CardReturn, step := 21)]
  {
    StepButtons(s, Conversation[3].query);
  }

  lemma StepCardNumber(s: State, f: FormData)
    requires s.forms == map[Chat := f] && f.step == 21
    ensures Dispatch(s, Conversation[4]).forms == map[Chat := f.(cardNumber := "1111222233334444", step := 211)]
  {
    CardStep(s, Conversation[4].message);
  }

  lemma StepBank(s: State, f: FormData)
    requires s.forms == map[Chat := f] && f.step == 211
    ensures Dispatch(s, Conversation[5]).forms == map[Chat := f.(bank := "Sber", step := 3)]
  {
    FreeTextSteps(s, Conversation[5].message);
  }

  lemma StepID(s: State, f: FormData)
    requires s.forms == map[Chat := f] && f.step == 3
    ensures Dispatch(s, Conversation[6]).forms == map[Chat := f.(id := "123456")]
  {
    IDStep(s, Conversation[6].message);
  }

  lemma StepConfirm(s: State, f: FormData)
    requires s.forms == map[Chat := f] && f.step == 3
    ensures Dispatch(s, Conversation[7]).forms == map[Chat := f.(step := 4)]
  {
    StepButtons(s, Conversation[7].query);
  }

  lemma StepPhoto(s: State, f: FormData)
    requires s.forms == map[Chat := f] && f.step == 4
    ensures Dispatch(s, Conversation[8]).forms == map[Chat := f.(photos := f.photos + ["proof"])]
  {
    PhotoStep(s, Conversation[8].message);
  }

  lemma StepDone(s: State)
    requires s.forms == map[Chat := Finished]
    ensures var t := Dispatch(s, Conversation[9]);
      && t.forms == map[]
      && t.outbox == s.outbox + [Say(Chat, ThankYou)] + AdminMessages(Finished, Chat, "ivan")
  {
    PhotoStep(s, Conversation[9].message);
  }

  /** The administrator's two messages for the finished form. */
  lemma FinishedNotification()
    ensures var out := AdminMessages(Finished, Chat, "ivan");
      && |out| == 2
      && out[0] == SendMediaGroup(AdminID, [InputMediaPhoto("proof", SummaryText(Finished))])
      && ParseAdminPayload(out[1].markup.rows[1][0].data) == Some(MarkPaid(Chat))
  {
    assert MediaList(Finished.photos, SummaryText(Finished)) == [InputMediaPhoto("proof", SummaryText(Finished))];
    PaidPayloadRoundTrip(Chat);
  }

  /** Every update keeps what was already sent. */
  lemma {:induction false} RunKeepsOutbox(s: State, us: seq<Update>, x: Outbound)
    requires x in s.outbox
    ensures x in Run(s, us).outbox
    decreases |us|
  {
    if us != [] {
      OutboxGrows(s, us[0]);
      var t := Dispatch(s, us[0]);
      var i :| 0 <= i < |s.outbox| && s.outbox[i] == x;
      assert t.outbox[..|s.outbox|][i] == x;
      RunKeepsOutbox(t, us[1..], x);
    }
  }

  /**
    The user's form is gone from the store, the user was told a cashback of
    560, and the administrator got one photo captioned with the summary (bank,
    card number, cashback 560) followed by the keyboard whose "paid" button
    names this user.
   */
  lemma EndToEnd()
    ensures var s := Run(State(map[], []), Conversation);
      && Chat !in s.forms
      && Say(Chat, AmountAccepted(560)) in s.outbox
      && |s.outbox| >= 2
      && s.outbox[|s.outbox| - 2..] == AdminMessages(Finished, Chat, "ivan")
      && s.outbox[|s.outbox| - 2] == SendMediaGroup(AdminID, [InputMediaPhoto("proof", SummaryText(Finished))])
      && ParseAdminPayload(s.outbox[|s.outbox| - 1].markup.rows[1][0].data) == Some(MarkPaid(Chat))
  {
    var us := Conversation;
    var s0 := State(map[], []);
    var s1 := Dispatch(s0, us[0]);
    StepStart(s0);
    var s2 := Dispatch(s1, us[1]);
    StepRange(s1);
    var s3 := Dispatch(s2, us[2]);
    StepAmount(s2);
    var s4 := Dispatch(s3, us[3]);
    StepCard(s3, s3.forms[Chat]);
    var s5 := Dispatch(s4, us[4]);
    StepCardNumber(s4, s4.forms[Chat]);
    var s6 := Dispatch(s5, us[5]);
    StepBank(s5, s5.forms[Chat]);
    var s7 := Dispatch(s6, us[6]);
    StepID(s6, s6.forms[Chat]);
    var s8 := Dispatch(s7, us[7]);
    StepConfirm(s7, s7.forms[Chat]);
    var s9 := Dispatch(s8, us[8]);
    StepPhoto(s8, s8.forms[Chat]);
    assert s8.forms[Chat].photos + ["proof"] == ["proof"];
    assert s9.forms == map[Chat := Finished];
    var s10 := Dispatch(s9, us[9]);
    StepDone(s9);
    FinishedNotification();
    RunCons(s0, us);
    RunCons(s1, us[1..]);
    RunCons(s2, us[2..]);
    RunCons(s3, us[3..]);
    RunCons(s4, us[4..]);
    RunCons(s5, us[5..]);
    RunCons(s6, us[6..]);
    RunCons(s7, us[7..]);
    RunCons(s8, us[8..]);
    RunCons(s9, us[9..]);
    assert us[10..] == [];
    assert Run(s0, us) == s10;
    RunKeepsOutbox(s3, us[3..], Say(Chat, AmountAccepted(560)));
  }

  /**
    The confirmation button does not check the step: pressed on a fresh form
    (an old preview's button, say), then one photo and `/done`, it hands the
    administrator a form with no bracket, amount, payout details or ID, and a
    summary without a payout block.
   */
  lemma EmptyFormCanBeHandedOver(s: State)
    requires s.forms == map[Chat := NewForm]
    ensures var t := Run(s, [Press(ConfirmData), Photo(["shot"]), Text(DoneCommand)]);
      var sent := NewForm.(photos := ["shot"], step := 4);
      && t.forms == map[]
      && |t.outbox| >= 2
      && t.outbox[|t.outbox| - 2..] == AdminMessages(sent, Chat, "ivan")
      && SummaryLines(sent) == [Line(DepositCaption, ""), Line(ReturnCaption, ""),
                                Line(CashbackCaption, "0" + RoubleSuffix), Line(IDCaption, "")]
  {
    var us := [Press(ConfirmData), Photo(["shot"]), Text(DoneCommand)];
    StepPayloadsAreNotAdminPayloads();
    var s1 := Dispatch(s, us[0]);
    StepButtons(s, us[0].query);
    assert s1.forms == map[Chat := NewForm.(step := 4)];
    var s2 := Dispatch(s1, us[1]);
    PhotoStep(s1, us[1].message);
    assert NewForm.photos + ["shot"] == ["shot"];
    var sent := NewForm.(photos := ["shot"], step := 4);
    assert s2.forms == map[Chat := sent];
    var s3 := Dispatch(s2, us[2]);
    PhotoStep(s2, us[2].message);
    RunCons(s, us);
    RunCons(s1, us[1..]);
    RunCons(s2, us[2..]);
    assert us[3..] == [];
    assert Run(s, us) == s3;
  }

  // Single updates on a one-form store, for the scenarios below.

  lemma PressEdit(s: State, f: FormData)
    requires s.forms == map[Chat := f]
    ensures Dispatch(s, Press(EditData)).forms == map[Chat := f.(step := 1)]
  {
    StepButtons(s, Press(EditData).query);
  }

  lemma PressConfirm(s: State, f: FormData)
    requires s.forms == map[Chat := f]
    ensures Dispatch(s, Press(ConfirmData)).forms == map[Chat := f.(step := 4)]
  {
    StepButtons(s, Press(ConfirmData).query);
  }

  lemma PressCrypto(s: State, f: FormData)
    requires s.forms == map[Chat := f]
    ensures Dispatch(s, Press(ReturnCryptoData)).forms == map[Chat := f.(returnType := CryptoReturn, step := 22)]
  {
    StepButtons(s, Press(ReturnCryptoData).query);
  }

  lemma TypeRange(s: State, f: FormData, t: string)
    requires s.forms == map[Chat := f] && f.step == 1 && t != StartCommand
    ensures Dispatch(s, Text(t)).forms == map[Chat := f.(depositRange := t, step := 11)]
  {
    RangeStep(s, Text(t).message);
  }

  lemma SendShot(s: State, f: FormData)
    requires s.forms == map[Chat := f] && f.step == 4
    ensures Dispatch(s, Photo(["shot"])).forms == map[Chat := f.(photos := f.photos + ["shot"])]
  {
    PhotoStep(s, Photo(["shot"]).message);
  }

  lemma SendDone(s: State, f: FormData)
    requires s.forms == map[Chat := f] && f.step == 4 && f.photos != []
    ensures var t := Dispatch(s, Text(DoneCommand));
      && t.forms == map[]
      && t.outbox == s.outbox + [Say(Chat, ThankYou)] + AdminMessages(f, Chat, "ivan")
  {
    PhotoStep(s, Text(DoneCommand).message);
  }

  /** A form at the preview: low bracket, 800 deposited, 560 cashback, card payout. */
  const Previewed: FormData :=
    FormData(LowLabel, 800, CardReturn, 560, "Sber", "1111222233334444", "", "", "123456", [], 3)

  /**
    The cashback is not always the bracket's cashback for the amount. "Edit"
    keeps the amount and the cashback, a new bracket is stored at step 1, and the
    old preview's confirm button still leads to step 4. After a photo and
    `/done`, the administrator gets a top-bracket form carrying the low
    bracket's cashback, for an amount the top bracket rejects.
   */
  lemma StaleConfirmMismatch(s: State)
    requires s.forms == map[Chat := Previewed]
    ensures var t := Run(s, [Press(EditData), Text(HighLabel), Press(ConfirmData), Photo(["shot"]), Text(DoneCommand)]);
      var sent := Previewed.(depositRange := HighLabel, photos := ["shot"], step := 4);
      && t.forms == map[]
      && |t.outbox| >= 2
      && t.outbox[|t.outbox| - 2..] == AdminMessages(sent, Chat, "ivan")
      && sent.cashback == 560
      && CashbackFor(sent.depositRange, sent.depositAmount) == None
  {
    var us := [Press(EditData), Text(HighLabel), Press(ConfirmData), Photo(["shot"]), Text(DoneCommand)];
    var f1 := Previewed.(step := 1);
    var f2 := f1.(depositRange := HighLabel, step := 11);
    var f3 := f2.(step := 4);
    var sent := Previewed.(depositRange := HighLabel, photos := ["shot"], step := 4);
    var s1 := Dispatch(s, us[0]);
    PressEdit(s, Previewed);
    var s2 := Dispatch(s1, us[1]);
    TypeRange(s1, f1, HighLabel);
    var s3 := Dispatch(s2, us[2]);
    PressConfirm(s2, f2);
    var s4 := Dispatch(s3, us[3]);
    SendShot(s3, f3);
    assert f3.(photos := f3.photos + ["shot"]) == sent;
    var s5 := Dispatch(s4, us[4]);
    SendDone(s4, sent);
    assert |AdminMessages(sent, Chat, "ivan")| == 2;
    RunCons(s, us);
    RunCons(s1, us[1..]);
    RunCons(s2, us[2..]);
    RunCons(s3, us[3..]);
    RunCons(s4, us[4..]);
    assert us[5..] == [];
    assert Run(s, us) == s5;
  }

  /**
    The payout details are not only those of the chosen payout. After a card
    number is entered, the payout buttons, still on screen, switch the
    return type to crypto: the card number stays in the form.
   */
  lemma StalePayoutMismatch(s: State, f: FormData)
    requires s.forms == map[Chat := f] && f.step == 2
    ensures var t := Run(s, [Press(ReturnCardData), Text("1111222233334444"), Press(ReturnCryptoData)]);
      && t.forms == map[Chat := f.(returnType := CryptoReturn, cardNumber := "1111222233334444", step := 22)]
  {
    var us := [Press(ReturnCardData), Text("1111222233334444"), Press(ReturnCryptoData)];
    var s1 := Dispatch(s, us[0]);
    StepCard(s, f);
    var f1 := f.(returnType := CardReturn, step := 21);
    var s2 := Dispatch(s1, us[1]);
    StepCardNumber(s1, f1);
    var s3 := Dispatch(s2, us[2]);
    PressCrypto(s2, f1.(cardNumber := "1111222233334444", step := 211));
    RunCons(s, us);
    RunCons(s1, us[1..]);
    RunCons(s2, us[2..]);
    assert us[3..] == [];
    assert Run(s, us) == s3;
  }
}
