/**
  The handlers of bot.go as they run: `userForms` (bot.go:35) is a map from
  chat id to a `UserForm` object whose fields the handlers assign in place,
  and the Telegram calls append to an outbox. Each handler is proved to do
  what `Machine` says of it.
 */
module Bot {
  import opened Wrappers
  import opened Strconv
  import opened Cashback
  import opened Patterns
  import opened Form
  import opened Telegram
  import opened Admin
  import opened Machine

  /** `UserForm` (bot.go:21-33). */
  class UserForm {
    var depositRange: string
    var depositAmount: int
    var returnType: string
    var cashback: int
    var bank: string
    var cardNumber: string
    var cryptoNetwork: string
    var cryptoAddress: string
    var id: string
    var photos: seq<string>
    var step: int

    /** `&UserForm{Step: 1}`. */
    constructor ()
      ensures Data() == NewForm
    {
      depositRange, depositAmount, returnType, cashback := "", 0, "", 0;
      bank, cardNumber, cryptoNetwork, cryptoAddress, id := "", "", "", "", "";
      photos, step := [], 1;
    }

    /** The current field values. */
    function Data(): FormData
      reads this
    {
      FormData(depositRange, depositAmount, returnType, cashback, bank, cardNumber,
               cryptoNetwork, cryptoAddress, id, photos, step)
    }

    /**
      The `switch form.Step` of `messageHandler` (bot.go:242-433) applied to
      this form: what it sends, and whether the form was handed over and must
      leave the store.
     */
    method OnText(m: Message) returns (out: seq<Outbound>, finished: bool)
      requires ValidStep(step)
      modifies this
      ensures !finished ==> ValidStep(step)
      ensures OnMessage(old(Data()), m) == Effect(if finished then None else Some(Data()), out)
    {
      var chat := m.chatID;
      finished := false;
      if step == 1 {
        depositRange := m.text;
        step := 11;
        var percent := PercentShown(depositRange);
        out := [Say(chat, RangeChosen(depositRange, percent))];
      } else if step == 11 {
        out := OnAmount(m);
      } else if step == 21 {
        var number := m.text;
        if !IsCardNumber(number) {
          out := [Say(chat, BadCardNumber)];
          return;
        }
        cardNumber := number;
        step := 211;
        out := [Say(chat, AskBank)];
      } else if step == 211 {
        bank := m.text;
        step := 3;
        out := [Say(chat, AskID)];
      } else if step == 22 {
        cryptoNetwork := m.text;
        step := 221;
        out := [Say(chat, AskWallet)];
      } else if step == 221 {
        cryptoAddress := m.text;
        step := 3;
        out := [Say(chat, AskID)];
      } else if step == 3 {
        var text := m.text;
        if !IsExternalID(text) {
          out := [Say(chat, BadID)];
          return;
        }
        id := text;
        out := [SendMessage(chat, Preview(Data()), ConfirmButtons)];
      } else if step == 4 {
        out, finished := OnProof(m);
      } else {
        out := [];
      }
    }

    /** Step 11 (bot.go:266-312). */
    method OnAmount(m: Message) returns (out: seq<Outbound>)
      requires step == 11
      modifies this
      ensures step == 11 || step == 2
      ensures OnMessage(old(Data()), m) == Effect(Some(Data()), out)
    {
      var chat := m.chatID;
      var parsed := ParseInt(m.text);
      if parsed.None? || parsed.value <= 0 {
        out := [Say(chat, EnterValidAmount)];
        return;
      }
      var amount := parsed.value;
      var earned := CashbackFor(depositRange, amount);
      if earned.None? {
        out := [Say(chat, AmountOutOfRange)];
        return;
      }
      cashback := earned.value;
      depositAmount := amount;
      step := 2;
      out := [Say(chat, AmountAccepted(cashback)), SendMessage(chat, AskReturnType, ReturnTypeButtons)];
    }

    /** Step 4 (bot.go:403-432). */
    method OnProof(m: Message) returns (out: seq<Outbound>, finished: bool)
      requires step == 4
      modifies this
      ensures step == 4
      ensures OnMessage(old(Data()), m) == Effect(if finished then None else Some(Data()), out)
    {
      var chat := m.chatID;
      finished := false;
      if |m.photo| > 0 {
        var fileID := m.photo[|m.photo| - 1];
        photos := photos + [fileID];
        out := if |photos| == 1 then [Say(chat, PhotoReceived)] else [];
      } else if m.text == DoneCommand {
        if |photos| == 0 {
          out := [Say(chat, NoPhotos)];
          return;
        }
        var notification := SendFormToAdmin(Data(), chat, m.username);
        out := [Say(chat, ThankYou)] + notification;
        finished := true;
      } else {
        out := [Say(chat, PhotosNotFiles)];
      }
    }

    /** The step buttons of `callbackHandler` (bot.go:166-224), whatever the current step. */
    method OnButton(chat: int, data: string) returns (out: seq<Outbound>)
      requires ValidStep(step)
      modifies this
      ensures ValidStep(step)
      ensures OnStepButton(old(Data()), chat, data) == Effect(Some(Data()), out)
    {
      if data == ReturnCardData {
        returnType := CardReturn;
        step := 21;
        out := [Say(chat, AskCardNumber)];
      } else if data == ReturnCryptoData {
        returnType := CryptoReturn;
        step := 22;
        out := [Say(chat, AskCryptoNetwork)];
      } else if data == ConfirmData {
        step := 4;
        out := [SendPictures(chat, Instructions)];
      } else if data == EditData {
        step := 1;
        out := [SendMessage(chat, StartOver, ReplyKeyboard(EditKeyboard))];
      } else {
        out := [];
      }
    }
  }

  /** A store that differs from `before` only at `chat`, where it holds `d`. */
  lemma StoreUpdate(before: map<int, FormData>, after: map<int, FormData>, chat: int, d: FormData)
    requires chat in before && after.Keys == before.Keys && after[chat] == d
    requires forall k :: k in after && k != chat ==> after[k] == before[k]
    ensures after == before[chat := d]
  {
  }

  /** A store that is `before` without `chat`. */
  lemma StoreDelete(before: map<int, FormData>, after: map<int, FormData>, chat: int)
    requires after.Keys == before.Keys - {chat}
    requires forall k :: k in after ==> after[k] == before[k]
    ensures after == before - {chat}
  {
    var r := before - {chat};
    assert r.Keys == after.Keys;
    assert forall k :: k in r ==> r[k] == after[k];
  }

  class FormBot {
    /** `userForms`: one form object per chat. */
    var forms: map<int, UserForm>
    /** Everything sent through the Bot API so far, in order. */
    var outbox: seq<Outbound>

    /** No two chats share a form object, and every form is at a valid step. */
    ghost predicate Valid()
      reads this, forms.Values
    {
      && (forall a, b :: a in forms && b in forms && a != b ==> forms[a] != forms[b])
      && (forall chat :: chat in forms ==> ValidStep(forms[chat].step))
    }

    ghost function Store(): map<int, FormData>
      reads this, forms.Values
    {
      map chat | chat in forms :: forms[chat].Data()
    }

    ghost function Abstract(): State
      reads this, forms.Values
    {
      State(Store(), outbox)
    }

    constructor ()
      ensures Valid()
      ensures Abstract() == State(map[], [])
    {
      forms, outbox := map[], [];
    }

    /** `startHandler` (bot.go:69-107). */
    method StartHandler(m: Message)
      requires Valid()
      modifies this
      ensures Valid()
      ensures Abstract() == StartEvent(old(Abstract()), m)
    {
      var chat := m.chatID;
      outbox := outbox + [SendPictures(chat, Welcome(m.firstName)),
                          SendMessage(chat, ChooseFromMenu, ReplyKeyboard(StartKeyboard))];
      var form := new UserForm();
      forms := forms[chat := form];
      assert Store() == old(Store())[chat := NewForm];
    }

    /** `messageHandler` (bot.go:231-434): the chat's form, if any, reacts to the message. */
    method MessageHandler(m: Message)
      requires Valid()
      modifies this, forms.Values
      ensures Valid()
      ensures Abstract() == MessageEvent(old(Abstract()), m)
      ensures forall k :: k in old(forms) && k != m.chatID ==> k in forms && forms[k] == old(forms[k])
    {
      var chat := m.chatID;
      if chat !in forms {
        return;
      }
      var form := forms[chat];
      ghost var before := Store();
      var out, finished := form.OnText(m);
      outbox := outbox + out;
      if finished {
        forms := forms - {chat};
      }
      forall k | k in forms && k != chat
        ensures forms[k].Data() == before[k]
      {
        assert forms[k] != form;
      }
      if finished {
        StoreDelete(before, Store(), chat);
      } else {
        StoreUpdate(before, Store(), chat, form.Data());
      }
    }

    /** `callbackHandler` (bot.go:125-229); a press is keyed by `From.ID`. */
    method CallbackHandler(q: CallbackQuery)
      requires Valid()
      modifies this, forms.Values
      ensures Valid()
      ensures Abstract() == CallbackEvent(old(Abstract()), q)
      ensures forall k :: k in old(forms) && k != q.fromID ==> k in forms && forms[k] == old(forms[k])
    {
      var chat := q.fromID;
      if HasPrefix(q.data, ReplyPrefix) {
        var userID := ParseIntOrZero(TrimPrefix(q.data, ReplyPrefix));
        outbox := outbox + [Say(userID, AdminWantsContact), AnswerCallbackQuery(q.id, Silent)];
        return;
      }
      if HasPrefix(q.data, PaidPrefix) {
        var userID := ParseIntOrZero(TrimPrefix(q.data, PaidPrefix));
        outbox := outbox + [Say(userID, PaymentDone), AnswerCallbackQuery(q.id, MarkedPaid)];
        return;
      }
      if chat !in forms {
        return;
      }
      var form := forms[chat];
      ghost var before := Store();
      var out := form.OnButton(chat, q.data);
      outbox := outbox + out + [AnswerCallbackQuery(q.id, Silent)];
      forall k | k in forms && k != chat
        ensures forms[k].Data() == before[k]
      {
        assert forms[k] != form;
      }
      StoreUpdate(before, Store(), chat, form.Data());
    }

    /** The dispatcher of bot.go:41-53. */
    method Handle(u: Update)
      requires Valid()
      modifies this, forms.Values
      ensures Valid()
      ensures Abstract() == Dispatch(old(Abstract()), u)
    {
      match u
      case MessageUpdate(m) =>
        if m.text == StartCommand {
          StartHandler(m);
        } else {
          MessageHandler(m);
        }
      case CallbackUpdate(q) =>
        CallbackHandler(q);
    }
  }
}
