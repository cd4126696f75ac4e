/**
  The notification a finished form sends to the administrator
  (`sendFormToAdmin`, bot.go:437-505) and the administrator payloads that
  `callbackHandler` decodes (bot.go:131-159).
 */
module Admin {
  import opened Wrappers
  import opened Strconv
  import opened Form
  import opened Telegram

  /** The single administrator chat (bot.go:19). */
  const AdminID: int := 1

  const ReplyPrefix: string := "reply_"
  const PaidPrefix: string := "paid_"

  const Header: string := "Новая заявка:\n"
  const DepositCaption: string := "Депозит: "
  const ReturnCaption: string := "Возврат: "
  const CashbackCaption: string := "Кэшбэк: "
  const RoubleSuffix: string := " ₽"
  const BankCaption: string := "Банк: "
  const CardCaption: string := "Номер карты: "
  const NetworkCaption: string := "Сеть: "
  const AddressCaption: string := "Адрес: "
  const IDCaption: string := "ID: "

  /** One line of the summary: a fixed caption and the form's value. */
  datatype Line = Line(caption: string, value: string)

  /** The payout-specific block: card, crypto, or nothing for any other return type. */
  function PayoutLines(f: FormData): seq<Line> {
    if f.returnType == CardReturn then [Line(BankCaption, f.bank), Line(CardCaption, f.cardNumber)]
    else if f.returnType == CryptoReturn then [Line(NetworkCaption, f.cryptoNetwork), Line(AddressCaption, f.cryptoAddress)]
    else []
  }

  /** The lines of the summary, in order (bot.go:439-452). */
  function SummaryLines(f: FormData): seq<Line> {
    [Line(DepositCaption, f.depositRange),
     Line(ReturnCaption, f.returnType),
     Line(CashbackCaption, FormatInt(f.cashback) + RoubleSuffix)]
    + PayoutLines(f)
    + [Line(IDCaption, f.id)]
  }

  /** Appends the lines to `acc`, separated by newlines, the last one without a trailing newline. */
  function AppendLines(acc: string, ls: seq<Line>): string
    decreases |ls|
  {
    if ls == [] then acc
    else if |ls| == 1 then acc + ls[0].caption + ls[0].value
    else AppendLines(acc + ls[0].caption + ls[0].value + "\n", ls[1..])
  }

  function SummaryText(f: FormData): string {
    AppendLines(Header, SummaryLines(f))
  }

  predicate HasCaption(ls: seq<Line>, caption: string) {
    exists i :: 0 <= i < |ls| && ls[i].caption == caption
  }

  /**
    The summary always starts with the deposit, return type and cashback and
    ends with the ID; the bank and card lines appear exactly when the return
    type is "card", the network and address lines exactly when it is "crypto".
   */
  lemma SummaryStructure(f: FormData)
    ensures var ls := SummaryLines(f);
      && |ls| == (if f.returnType == CardReturn || f.returnType == CryptoReturn then 6 else 4)
      && ls[0] == Line(DepositCaption, f.depositRange)
      && ls[1] == Line(ReturnCaption, f.returnType)
      && ls[2] == Line(CashbackCaption, FormatInt(f.cashback) + RoubleSuffix)
      && ls[|ls| - 1] == Line(IDCaption, f.id)
      && (HasCaption(ls, BankCaption) <==> f.returnType == CardReturn)
      && (HasCaption(ls, CardCaption) <==> f.returnType == CardReturn)
      && (HasCaption(ls, NetworkCaption) <==> f.returnType == CryptoReturn)
      && (HasCaption(ls, AddressCaption) <==> f.returnType == CryptoReturn)
  {
    var ls := SummaryLines(f);
    if f.returnType == CardReturn {
      assert ls[3].caption == BankCaption && ls[4].caption == CardCaption;
    } else if f.returnType == CryptoReturn {
      assert ls[3].caption == NetworkCaption && ls[4].caption == AddressCaption;
    }
  }

  /** The summary text is the concatenation bot.go:439-452 writes out. */
  lemma SummaryTextAsWritten(f: FormData)
    ensures var common :=
        Header
        + DepositCaption + f.depositRange + "\n"
        + ReturnCaption + f.returnType + "\n"
        + CashbackCaption + FormatInt(f.cashback) + RoubleSuffix + "\n";
      && (f.returnType == CardReturn ==>
            SummaryText(f) == common
              + BankCaption + f.bank + "\n"
              + CardCaption + f.cardNumber + "\n"
              + IDCaption + f.id)
      && (f.returnType == CryptoReturn ==>
            SummaryText(f) == common
              + NetworkCaption + f.cryptoNetwork + "\n"
              + AddressCaption + f.cryptoAddress + "\n"
              + IDCaption + f.id)
      && (f.returnType != CardReturn && f.returnType != CryptoReturn ==>
            SummaryText(f) == common + IDCaption + f.id)
  {
    var ls := SummaryLines(f);
    var a1 := Header + DepositCaption + f.depositRange + "\n";
    var a2 := a1 + ReturnCaption + f.returnType + "\n";
    var a3 := a2 + CashbackCaption + (FormatInt(f.cashback) + RoubleSuffix) + "\n";
    assert a2 + CashbackCaption + (FormatInt(f.cashback) + RoubleSuffix)
        == a2 + CashbackCaption + FormatInt(f.cashback) + RoubleSuffix;
    UnfoldLine(Header, ls, 0);
    UnfoldLine(a1, ls, 1);
    UnfoldLine(a2, ls, 2);
    if |ls| == 6 {
      var a4 := a3 + ls[3].caption + ls[3].value + "\n";
      UnfoldLine(a3, ls, 3);
      UnfoldLine(a4, ls, 4);
    }
  }

  /** One step of `AppendLines` on the suffix of `ls` from position k. */
  lemma UnfoldLine(acc: string, ls: seq<Line>, k: nat)
    requires k + 2 <= |ls|
    ensures AppendLines(acc, ls[k..]) == AppendLines(acc + ls[k].caption + ls[k].value + "\n", ls[k + 1..])
  {
    assert ls[k..][1..] == ls[k + 1..];
  }

  /** The media group of bot.go:473-485: one photo per file reference, the caption on the first. */
  function MediaList(photos: seq<string>, caption: string): seq<InputMedia> {
    seq(|photos|, i requires 0 <= i < |photos| => InputMediaPhoto(photos[i], if i == 0 then caption else ""))
  }

  lemma MediaListShape(photos: seq<string>, caption: string)
    ensures var media := MediaList(photos, caption);
      && |media| == |photos|
      && (forall i :: 0 <= i < |media| ==> media[i].media == photos[i])
      && (|media| > 0 ==> media[0].caption == caption)
      && (forall i :: 0 < i < |media| ==> media[i].caption == "")
  {
  }

  /** The loop of bot.go:473-485. */
  method BuildMedia(photos: seq<string>, caption: string) returns (media: seq<InputMedia>)
    ensures media == MediaList(photos, caption)
  {
    media := [];
    for i := 0 to |photos|
      invariant media == MediaList(photos[..i], caption)
    {
      if i == 0 {
        media := media + [InputMediaPhoto(photos[i], caption)];
      } else {
        media := media + [InputMediaPhoto(photos[i], "")];
      }
    }
    assert photos[..|photos|] == photos;
  }

  /** The payload of the "paid" button (bot.go:465). */
  function PaidPayload(userID: int): string {
    PaidPrefix + FormatInt(userID)
  }

  /** The administrator keyboard (bot.go:454-469): a link to the user's chat and the "paid" button. */
  function AdminKeyboard(userID: int, username: string): Markup {
    InlineKeyboard([[UrlButton("https://t.me/" + username)], [CallbackButton(PaidPayload(userID))]])
  }

  /** An administrator action decoded from a callback payload. */
  datatype AdminAction = ContactUser(userID: int) | MarkPaid(userID: int)

  /** bot.go:131-146: `reply_` is tried first; an unparsable id becomes 0. */
  function ParseAdminPayload(data: string): Option<AdminAction> {
    if HasPrefix(data, ReplyPrefix) then Some(ContactUser(ParseIntOrZero(TrimPrefix(data, ReplyPrefix))))
    else if HasPrefix(data, PaidPrefix) then Some(MarkPaid(ParseIntOrZero(TrimPrefix(data, PaidPrefix))))
    else None
  }

  /** Decoding the "paid" payload gives back the user it was built for. */
  lemma PaidPayloadRoundTrip(userID: int)
    ensures ParseAdminPayload(PaidPayload(userID)) == Some(MarkPaid(userID))
  {
    var data := PaidPayload(userID);
    NotPrefixAt(data, ReplyPrefix, 0);
    assert data[..|PaidPrefix|] == PaidPrefix;
    assert TrimPrefix(data, PaidPrefix) == FormatInt(userID);
    ParseFormat(userID);
  }

  /**
    A "paid" payload whose tail does not parse still counts as a "paid" press:
    the user id falls back to 0, so the payment notice goes to chat 0.
   */
  lemma UnparsablePaidTargetsChatZero(t: string)
    requires ParseInt(t).None?
    ensures ParseAdminPayload(PaidPrefix + t) == Some(MarkPaid(0))
  {
    var data := PaidPrefix + t;
    NotPrefixAt(data, ReplyPrefix, 0);
    assert data[..|PaidPrefix|] == PaidPrefix;
    assert TrimPrefix(data, PaidPrefix) == t;
  }

  /** The static button payloads are not administrator payloads. */
  lemma StepPayloadsAreNotAdminPayloads()
    ensures ParseAdminPayload(ReturnCardData) == None
    ensures ParseAdminPayload(ReturnCryptoData) == None
    ensures ParseAdminPayload(ConfirmData) == None
    ensures ParseAdminPayload(EditData) == None
  {
    NotPrefixAt(ReturnCardData, ReplyPrefix, 2);
    NotPrefixAt(ReturnCardData, PaidPrefix, 0);
    NotPrefixAt(ReturnCryptoData, ReplyPrefix, 2);
    NotPrefixAt(ReturnCryptoData, PaidPrefix, 0);
    NotPrefixAt(ConfirmData, ReplyPrefix, 0);
    NotPrefixAt(ConfirmData, PaidPrefix, 0);
    NotPrefixAt(EditData, ReplyPrefix, 0);
    NotPrefixAt(EditData, PaidPrefix, 0);
  }

  /** A string that differs from a prefix at some position does not start with it. */
  lemma NotPrefixAt(s: string, prefix: string, i: nat)
    requires i < |prefix| && i < |s| && s[i] != prefix[i]
    ensures !HasPrefix(s, prefix)
  {
    if |prefix| <= |s| {
      assert s[..|prefix|][i] != prefix[i];
    }
  }

  /**
    What `sendFormToAdmin` sends to the administrator for the form of user
    `userID`: the photos as one media group captioned with the summary, then
    the "form above" message (`FormAbove`) with the keyboard; with no photos,
    the summary itself with the keyboard.
   */
  function AdminMessages(f: FormData, userID: int, username: string): seq<Outbound> {
    var kb := AdminKeyboard(userID, username);
    if |f.photos| > 0 then
      [SendMediaGroup(AdminID, MediaList(f.photos, SummaryText(f))), SendMessage(AdminID, FormAbove, kb)]
    else
      [SendMessage(AdminID, Summary(SummaryText(f)), kb)]
  }

  /** bot.go:437-505. */
  method SendFormToAdmin(f: FormData, userID: int, username: string) returns (out: seq<Outbound>)
    ensures out == AdminMessages(f, userID, username)
  {
    var text := SummaryText(f);
    var kb := AdminKeyboard(userID, username);
    if |f.photos| > 0 {
      var media := BuildMedia(f.photos, text);
      out := [SendMediaGroup(AdminID, media), SendMessage(AdminID, FormAbove, kb)];
    } else {
      out := [SendMessage(AdminID, Summary(text), kb)];
    }
  }

  /**
    Everything goes to the administrator; with photos the first message is a
    media group of exactly those photos in order, the summary as the first
    one's caption only; the "paid" button decodes to the submitting user.
   */
  lemma AdminMessagesShape(f: FormData, userID: int, username: string)
    ensures var out := AdminMessages(f, userID, username);
      && (forall k :: 0 <= k < |out| ==> (out[k].SendMessage? || out[k].SendMediaGroup?) && out[k].chatID == AdminID)
      && (|f.photos| > 0 ==>
            && |out| == 2
            && out[0].SendMediaGroup?
            && |out[0].media| == |f.photos|
            && (forall i :: 0 <= i < |f.photos| ==> out[0].media[i].media == f.photos[i])
            && out[0].media[0].caption == SummaryText(f)
            && (forall i :: 0 < i < |f.photos| ==> out[0].media[i].caption == ""))
      && (|f.photos| == 0 ==> out == [SendMessage(AdminID, Summary(SummaryText(f)), AdminKeyboard(userID, username))])
      && ParseAdminPayload(AdminKeyboard(userID, username).rows[1][0].data) == Some(MarkPaid(userID))
  {
    MediaListShape(f.photos, SummaryText(f));
    PaidPayloadRoundTrip(userID);
  }
}
