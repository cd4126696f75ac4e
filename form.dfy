/**
  The value snapshot of a `UserForm` (bot.go:21-33): what one user has entered
  so far and the step of the conversation the form is at.
 */
module Form {
  /** The fields of `UserForm` (bot.go:21-33). */
  datatype FormData = FormData(
    depositRange: string,
    depositAmount: int,
    returnType: string,
    cashback: int,
    bank: string,
    cardNumber: string,
    cryptoNetwork: string,
    cryptoAddress: string,
    id: string,
    photos: seq<string>,
    step: int)

  /** `&UserForm{Step: 1}`: every field at its zero value except the step. */
  const NewForm: FormData := FormData("", 0, "", 0, "", "", "", "", "", [], 1)

  /** The two values `callbackHandler` stores as the return type (bot.go:168, 175). */
  const CardReturn: string := "card"
  const CryptoReturn: string := "crypto"
}
