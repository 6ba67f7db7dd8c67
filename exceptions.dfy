/** The exceptions that can reach the handlers of the poll loop. */
module Exceptions {
  import opened Json

  /** The Telegram client's error classes the loop names: `Unauthorized`, `BadRequest`, and the base `TelegramError`. */
  datatype TelegramError = Unauthorized | BadRequest | OtherTelegramError

  datatype Raised =
    | Praktikum(message: string)   // PraktikumException, with the text `str(e)` yields
    | Telegram(channel: TelegramError)
    | Builtin(python: PyError)     // anything else, caught by `except Exception`
}
