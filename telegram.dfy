/**
  The values that cross the boundary between the bot and the Telegram Bot API,
  reduced to what the form state machine reads or decides.

  Outbound actions are records instead of calls: `SendMessage`,
  `SendMediaGroup` and `AnswerCallbackQuery` of the API. User-facing wording
  is an opaque `Notice`; the keyboards keep the payloads and the labels that
  the bot compares.
 */
module Telegram {
  import opened Cashback
  import opened Form

  /**
    An inbound message: `Chat.ID`, `From.FirstName`, `From.Username`, `Text`
    and the `FileID` of every `PhotoSize` in `Photo`, in order. A photo message
    carries the empty text.
   */
  datatype Message = Message(chatID: int, firstName: string, username: string, text: string, photo: seq<string>)

  /** An inbound button press: its `ID`, `From.ID` and `Data` payload. */
  datatype CallbackQuery = CallbackQuery(id: string, fromID: int, data: string)

  /** An update the dispatcher routes (bot.go:41-53). */
  datatype Update = MessageUpdate(message: Message) | CallbackUpdate(query: CallbackQuery)

  /** What the bot tells a user, without its wording. */
  datatype Notice =
    | Welcome(firstName: string)          // caption of the promo image (bot.go:80-90)
    | ChooseFromMenu                      // bot.go:102
    | RangeChosen(range: string, percent: Percent)  // bot.go:261-263
    | EnterValidAmount                    // bot.go:271
    | AmountOutOfRange                    // bot.go:301
    | AmountAccepted(cashback: int)       // bot.go:310
    | AskReturnType                       // bot.go:120
    | BadCardNumber                       // bot.go:320
    | AskBank                             // bot.go:328
    | AskID                               // bot.go:335, 351
    | AskWallet                           // bot.go:344
    | AskCardNumber                       // bot.go:172
    | AskCryptoNetwork                    // bot.go:179
    | BadID                               // bot.go:361
    | Preview(form: FormData)             // the data check of bot.go:368-383
    | Instructions                        // the two instruction images (bot.go:185-197)
    | StartOver                           // bot.go:211
    | PhotoReceived                       // bot.go:410
    | NoPhotos                            // bot.go:417
    | ThankYou                            // bot.go:423
    | PhotosNotFiles                      // bot.go:430
    | AdminWantsContact                   // bot.go:136
    | PaymentDone                         // bot.go:150
    | FormAbove                           // bot.go:494
    | Summary(text: string)               // the admin summary sent as plain text (bot.go:501)

  datatype Button = CallbackButton(data: string) | UrlButton(url: string)

  datatype Markup =
    | NoMarkup
    | ReplyKeyboard(labels: seq<string>)
    | InlineKeyboard(rows: seq<seq<Button>>)

  /** One photo of a media group: the file reference and its caption ("" for none). */
  datatype InputMedia = InputMediaPhoto(media: string, caption: string)

  datatype Toast = Silent | MarkedPaid

  datatype Outbound =
    | SendMessage(chatID: int, notice: Notice, markup: Markup)
    | SendMediaGroup(chatID: int, media: seq<InputMedia>)
    | SendPictures(chatID: int, notice: Notice)   // a media group of the bot's own fixed images
    | AnswerCallbackQuery(queryID: string, toast: Toast)

  /** The reply keyboard of `/start` (bot.go:70-78). */
  const StartKeyboard: seq<string> := [StartLowLabel, MidLabel, HighLabel]
  /** The reply keyboard of `edit_data` (bot.go:212-222). */
  const EditKeyboard: seq<string> := [LowLabel, MidLabel, HighLabel]

  const ReturnCardData: string := "return_card"
  const ReturnCryptoData: string := "return_crypto"
  const ConfirmData: string := "confirm_data"
  const EditData: string := "edit_data"

  /** The payout choice (bot.go:110-117). */
  const ReturnTypeButtons: Markup := InlineKeyboard([[CallbackButton(ReturnCardData), CallbackButton(ReturnCryptoData)]])
  /** The preview's choice (bot.go:386-393). */
  const ConfirmButtons: Markup := InlineKeyboard([[CallbackButton(ConfirmData), CallbackButton(EditData)]])
}
